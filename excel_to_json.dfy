/** server/excel-to-json.js: the conversion of the workbook's sheets into
    knowledge items. The cleaners are pure; each sheet is a loop that pushes the
    accepted rows and counts `totalProcessed` and `skipped`; a final loop tallies
    the items per category. Reading the workbook and writing the JSON file are
    outside the model: the sheets arrive as sequences of cell values. */
module ExcelToJson {
  import opened Wrappers
  import opened Text

  // ---------------------------------------------------------------------------
  // cleanText: String(text).trim().replace(/\s+/g, ' ')

  /** Replaces every run of white space by one space. */
  function Collapse(s: string): (r: string)
    ensures |r| <= |s|
    ensures s != [] ==> r != [] && (IsWhitespace(r[0]) <==> IsWhitespace(s[0]))
    decreases |s|
  {
    if s == [] then []
    else if IsWhitespace(s[0]) then [' '] + Collapse(TrimStart(s[1..]))
    else [s[0]] + Collapse(s[1..])
  }

  /** No two white-space characters in a row. */
  predicate NoDoubleSpace(s: string) {
    forall i :: 0 <= i < |s| - 1 ==> !(IsWhitespace(s[i]) && IsWhitespace(s[i + 1]))
  }

  /** The only white space is the plain space. */
  predicate OnlyPlainSpaces(s: string) {
    forall i :: 0 <= i < |s| ==> IsWhitespace(s[i]) ==> s[i] == ' '
  }

  /** The shape of every cleaned text. */
  predicate Clean(s: string) {
    Trimmed(s) && NoDoubleSpace(s) && OnlyPlainSpaces(s)
  }

  /** The characters of `s` that are not white space, in order. */
  function Visible(s: string): string {
    if s == [] then []
    else if IsWhitespace(s[0]) then Visible(s[1..])
    else [s[0]] + Visible(s[1..])
  }

  lemma CollapseShape(s: string)
    ensures NoDoubleSpace(Collapse(s)) && OnlyPlainSpaces(Collapse(s))
    ensures s != [] && !IsWhitespace(s[|s| - 1]) ==> !IsWhitespace(Collapse(s)[|Collapse(s)| - 1])
  {
    CollapseNoDouble(s);
    CollapsePlain(s);
    if s != [] && !IsWhitespace(s[|s| - 1]) {
      CollapseLast(s);
    }
  }

  lemma {:induction false} CollapseNoDouble(s: string)
    ensures NoDoubleSpace(Collapse(s))
    decreases |s|
  {
    if s != [] {
      var t := if IsWhitespace(s[0]) then TrimStart(s[1..]) else s[1..];
      CollapseNoDouble(t);
      var c := Collapse(t);
      var r := Collapse(s);
      assert r == [r[0]] + c;
      assert c != [] && IsWhitespace(r[0]) ==> !IsWhitespace(c[0]);
      NoDoubleSpaceCons(r[0], c);
    }
  }

  lemma NoDoubleSpaceCons(x: char, c: string)
    requires NoDoubleSpace(c)
    requires c != [] && IsWhitespace(x) ==> !IsWhitespace(c[0])
    ensures NoDoubleSpace([x] + c)
  {
    var r := [x] + c;
    forall i | 0 <= i < |r| - 1 ensures !(IsWhitespace(r[i]) && IsWhitespace(r[i + 1])) {
      if i > 0 { assert r[i] == c[i - 1] && r[i + 1] == c[i]; }
    }
  }

  lemma {:induction false} CollapsePlain(s: string)
    ensures OnlyPlainSpaces(Collapse(s))
    decreases |s|
  {
    if s != [] {
      var t := if IsWhitespace(s[0]) then TrimStart(s[1..]) else s[1..];
      CollapsePlain(t);
      var c := Collapse(t);
      var r := Collapse(s);
      assert r == [r[0]] + c;
      forall i | 0 <= i < |r| && IsWhitespace(r[i]) ensures r[i] == ' ' {
        if i > 0 { assert r[i] == c[i - 1]; }
      }
    }
  }

  lemma {:induction false} CollapseLast(s: string)
    requires s != [] && !IsWhitespace(s[|s| - 1])
    ensures !IsWhitespace(Collapse(s)[|Collapse(s)| - 1])
    decreases |s|
  {
    if |s| > 1 {
      assert s[1..][|s| - 2] == s[|s| - 1];
      var t := s[1..];
      if IsWhitespace(s[0]) {
        TrimStartKeepsLast(t);
        t := TrimStart(t);
      }
      CollapseLast(t);
      assert Collapse(s) == [Collapse(s)[0]] + Collapse(t);
    }
  }

  /** Collapsing keeps every character that is not white space, in order. */
  lemma {:induction false} CollapseVisible(s: string)
    ensures Visible(Collapse(s)) == Visible(s)
    decreases |s|
  {
    if s != [] {
      if IsWhitespace(s[0]) {
        var t := TrimStart(s[1..]);
        CollapseVisible(t);
        TrimStartCut(s[1..]);
        VisibleSkipsWhitespace(s[1..], |s[1..]| - |t|);
        assert ([' '] + Collapse(t))[1..] == Collapse(t);
      } else {
        CollapseVisible(s[1..]);
        assert ([s[0]] + Collapse(s[1..]))[1..] == Collapse(s[1..]);
      }
    }
  }

  lemma {:induction false} VisibleSkipsWhitespace(s: string, n: nat)
    requires n <= |s| && AllWhitespace(s[..n])
    ensures Visible(s[n..]) == Visible(s)
  {
    if n > 0 {
      assert s[0] == s[..n][0];
      assert s[1..][n - 1..] == s[n..];
      assert s[1..][..n - 1] == s[..n][1..];
      VisibleSkipsWhitespace(s[1..], n - 1);
    }
  }

  /** A string already in clean shape is left alone by Collapse. */
  lemma {:induction false} CollapseOfClean(s: string)
    requires NoDoubleSpace(s) && OnlyPlainSpaces(s)
    ensures Collapse(s) == s
  {
    if s != [] {
      var t := s[1..];
      assert NoDoubleSpace(t) && OnlyPlainSpaces(t) by {
        forall i | 0 <= i < |t| - 1 ensures !(IsWhitespace(t[i]) && IsWhitespace(t[i + 1])) {
          assert t[i] == s[i + 1] && t[i + 1] == s[i + 2];
        }
        forall i | 0 <= i < |t| && IsWhitespace(t[i]) ensures t[i] == ' ' {
          assert t[i] == s[i + 1];
        }
      }
      if IsWhitespace(s[0]) {
        assert t == [] || !IsWhitespace(t[0]);
        TrimStartOfTrimmed(t);
      }
      CollapseOfClean(t);
    }
  }

  /** The length of the run of non-white-space characters `s` starts with. */
  function WordLen(s: string): (n: nat)
    ensures n <= |s|
    ensures forall i :: 0 <= i < n ==> !IsWhitespace(s[i])
    ensures n < |s| ==> IsWhitespace(s[n])
  {
    if s == [] || IsWhitespace(s[0]) then 0 else 1 + WordLen(s[1..])
  }

  /** The words of `s`: its maximal runs of non-white-space characters, in order
      (the pieces `\S+` matches). */
  function Words(s: string): (r: seq<string>)
    ensures forall i :: 0 <= i < |r| ==> r[i] != [] && Visible(r[i]) == r[i]
    decreases |s|
  {
    if s == [] then []
    else if IsWhitespace(s[0]) then Words(s[1..])
    else
      var n := WordLen(s);
      NoWhitespaceVisible(s[..n]);
      [s[..n]] + Words(s[n..])
  }

  lemma {:induction false} NoWhitespaceVisible(w: string)
    requires forall i :: 0 <= i < |w| ==> !IsWhitespace(w[i])
    ensures Visible(w) == w
  {
    if w != [] {
      NoWhitespaceVisible(w[1..]);
      assert [w[0]] + w[1..] == w;
    }
  }

  /** Leading white space has no words. */
  lemma {:induction false} WordsSkipWhitespace(s: string, n: nat)
    requires n <= |s| && AllWhitespace(s[..n])
    ensures Words(s[n..]) == Words(s)
  {
    if n > 0 {
      assert s[0] == s[..n][0];
      assert s[1..][n - 1..] == s[n..];
      assert s[1..][..n - 1] == s[..n][1..];
      WordsSkipWhitespace(s[1..], n - 1);
    }
  }

  /** Trailing white space does not end a word early. */
  lemma {:induction false} WordLenWhitespaceTail(a: string, b: string)
    requires AllWhitespace(b)
    ensures WordLen(a + b) == WordLen(a)
  {
    if a == [] {
      assert a + b == b;
    } else if !IsWhitespace(a[0]) {
      assert (a + b)[1..] == a[1..] + b;
      WordLenWhitespaceTail(a[1..], b);
    }
  }

  /** Trailing white space has no words. */
  lemma {:induction false} WordsWhitespaceTail(a: string, b: string)
    requires AllWhitespace(b)
    ensures Words(a + b) == Words(a)
    decreases |a|
  {
    if a == [] {
      assert a + b == b;
      WordsSkipWhitespace(b, |b|);
      assert b[|b|..] == [];
    } else if IsWhitespace(a[0]) {
      assert (a + b)[1..] == a[1..] + b;
      WordsWhitespaceTail(a[1..], b);
    } else {
      WordLenWhitespaceTail(a, b);
      var n := WordLen(a);
      assert (a + b)[..n] == a[..n];
      assert (a + b)[n..] == a[n..] + b;
      WordsWhitespaceTail(a[n..], b);
    }
  }

  /** Trimming keeps the words. */
  lemma WordsOfTrim(s: string)
    ensures Words(Trim(s)) == Words(s)
  {
    var i := |s| - |TrimStart(s)|;
    var t := Trim(s);
    TrimCut(s);
    assert s[i..] == t + s[i + |t|..];
    WordsSkipWhitespace(s, i);
    WordsWhitespaceTail(t, s[i + |t|..]);
  }

  /** Collapsing copies a leading word as it is. */
  lemma {:induction false} CollapseWordPrefix(w: string, rest: string)
    requires forall i :: 0 <= i < |w| ==> !IsWhitespace(w[i])
    ensures Collapse(w + rest) == w + Collapse(rest)
  {
    if w == [] {
      assert w + rest == rest;
    } else {
      assert (w + rest)[0] == w[0] && (w + rest)[1..] == w[1..] + rest;
      CollapseWordPrefix(w[1..], rest);
      assert [w[0]] + (w[1..] + Collapse(rest)) == w + Collapse(rest);
    }
  }

  lemma JoinCons(w: string, ws: seq<string>, sep: string)
    requires ws != []
    ensures Join([w] + ws, sep) == w + sep + Join(ws, sep)
  {
    assert ([w] + ws)[1..] == ws;
  }

  /** On a string with no white space at either end, collapsing joins its words
      with single spaces: each inner run of white space becomes exactly one space. */
  lemma {:induction false} CollapseWords(s: string)
    requires s == [] || (!IsWhitespace(s[0]) && !IsWhitespace(s[|s| - 1]))
    ensures Collapse(s) == Join(Words(s), " ")
    decreases |s|
  {
    if s != [] {
      var n := WordLen(s);
      var w := s[..n];
      var rest := s[n..];
      assert s == w + rest;
      CollapseWordPrefix(w, rest);
      assert Words(s) == [w] + Words(rest);
      if rest == [] {
        assert Words(s) == [w];
      } else {
        assert rest[|rest| - 1] == s[|s| - 1];
        var t := TrimStart(rest[1..]);
        CollapseGap(rest);
        assert Collapse(rest) == [' '] + Collapse(t);
        CollapseWords(t);
        JoinCons(w, Words(t), " ");
        assert w + ([' '] + Collapse(t)) == w + " " + Collapse(t);
      }
    }
  }

  /** A run of white space between two words: the next word starts right behind
      it. */
  lemma CollapseGap(rest: string)
    requires rest != [] && IsWhitespace(rest[0]) && !IsWhitespace(rest[|rest| - 1])
    ensures var t := TrimStart(rest[1..]);
      && t != [] && !IsWhitespace(t[0]) && t[|t| - 1] == rest[|rest| - 1]
      && Words(rest) == Words(t) && Words(t) != []
  {
    var t := TrimStart(rest[1..]);
    var k := GapEnd(rest);
    if k == |rest| {
      assert false;
    }
    assert t[|t| - 1] == rest[|rest| - 1];
    WordsSkipWhitespace(rest, k);
  }

  /** Where the run of white space at the front of `rest` ends. */
  lemma GapEnd(rest: string) returns (k: nat)
    requires rest != [] && IsWhitespace(rest[0])
    ensures 1 <= k <= |rest| && TrimStart(rest[1..]) == rest[k..] && AllWhitespace(rest[..k])
  {
    var u := rest[1..];
    var t := TrimStart(u);
    TrimStartCut(u);
    k := |u| - |t| + 1;
    assert rest[..k] == [rest[0]] + u[..k - 1];
  }

  /** `cleanText`: '' for a missing (falsy) value, else the words of the text
      joined by single spaces (trim, then every run of white space to one space). */
  function CleanText(text: Option<string>): (r: string)
    ensures text.None? ==> r == ""
    ensures text.Some? ==> r == Join(Words(text.value), " ")
    ensures Clean(r)
    ensures text.Some? ==> Visible(r) == Visible(text.value)
  {
    if text.None? || text.value == "" then ""
    else
      var t := Trim(text.value);
      CollapseShape(t);
      CollapseVisible(t);
      TrimVisible(text.value);
      CollapseWords(t);
      WordsOfTrim(text.value);
      Collapse(t)
  }

  lemma {:induction false} TrimStartKeepsLast(u: string)
    requires u != [] && !IsWhitespace(u[|u| - 1])
    ensures TrimStart(u) != [] && TrimStart(u)[|TrimStart(u)| - 1] == u[|u| - 1]
  {
    if IsWhitespace(u[0]) {
      assert u[1..][|u| - 2] == u[|u| - 1];
      TrimStartKeepsLast(u[1..]);
    }
  }

  lemma {:induction false} TrimStartVisible(s: string)
    ensures Visible(TrimStart(s)) == Visible(s)
  {
    if s != [] && IsWhitespace(s[0]) {
      TrimStartVisible(s[1..]);
    }
  }

  lemma {:induction false} TrimEndVisible(s: string)
    ensures Visible(TrimEnd(s)) == Visible(s)
  {
    if s != [] && IsWhitespace(s[|s| - 1]) {
      var front := s[..|s| - 1];
      TrimEndVisible(front);
      assert s == front + [s[|s| - 1]];
      VisibleConcat(front, [s[|s| - 1]]);
    }
  }

  /** Trimming only removes white space. */
  lemma TrimVisible(s: string)
    ensures Visible(Trim(s)) == Visible(s)
  {
    TrimStartVisible(s);
    TrimEndVisible(TrimStart(s));
  }

  lemma {:induction false} VisibleConcat(a: string, b: string)
    ensures Visible(a + b) == Visible(a) + Visible(b)
  {
    if a != [] {
      assert (a + b)[1..] == a[1..] + b;
      VisibleConcat(a[1..], b);
    } else {
      assert a + b == b;
    }
  }

  lemma {:induction false} VisibleOfWhitespace(s: string)
    requires AllWhitespace(s)
    ensures Visible(s) == []
  {
    if s != [] {
      VisibleOfWhitespace(s[1..]);
    }
  }

  /** `cleanText` is idempotent. */
  lemma CleanTextIdempotent(text: Option<string>)
    ensures CleanText(Some(CleanText(text))) == CleanText(text)
  {
    var r := CleanText(text);
    if r != "" {
      TrimOfTrimmed(r);
      CollapseOfClean(r);
    }
  }

  // ---------------------------------------------------------------------------
  // cleanKeywords: split(/[,;]/).map(trim).filter(non-empty).join(', ')

  predicate IsKeywordSeparator(c: char) {
    c == ',' || c == ';'
  }

  predicate NoSeparator(s: string) {
    forall i :: 0 <= i < |s| ==> !IsKeywordSeparator(s[i])
  }

  /** `s` with every ',' and ';' removed. */
  function Strip(s: string): string {
    if s == [] then []
    else if IsKeywordSeparator(s[0]) then Strip(s[1..])
    else [s[0]] + Strip(s[1..])
  }

  /** The parts laid end to end. */
  function Concat(parts: seq<string>): string {
    if parts == [] then [] else parts[0] + Concat(parts[1..])
  }

  /** `s.split(/[,;]/)`: the pieces between separators, at least one. */
  function SplitKeywords(s: string): (r: seq<string>)
    ensures |r| >= 1
    ensures forall i :: 0 <= i < |r| ==> NoSeparator(r[i])
  {
    if s == [] then [""]
    else if IsKeywordSeparator(s[0]) then [""] + SplitKeywords(s[1..])
    else
      var rest := SplitKeywords(s[1..]);
      [[s[0]] + rest[0]] + rest[1..]
  }

  /** The number and the content of the split pieces: there is one more piece than
      there are separators, and laid end to end they spell `s` without them.
      Where the cuts fall is stated by `SplitNoSeparator` and `SplitAtFirstSeparator`. */
  lemma {:induction false} SplitKeywordsSpells(s: string)
    ensures |SplitKeywords(s)| == |s| - |Strip(s)| + 1
    ensures Concat(SplitKeywords(s)) == Strip(s)
  {
    if s != [] {
      SplitKeywordsSpells(s[1..]);
      var rest := SplitKeywords(s[1..]);
      var r := SplitKeywords(s);
      if IsKeywordSeparator(s[0]) {
        assert r == [""] + rest;
        assert r[1..] == rest;
      } else {
        assert r == [[s[0]] + rest[0]] + rest[1..];
        assert r[1..] == rest[1..];
        assert Concat(rest) == rest[0] + Concat(rest[1..]);
        assert Concat(r) == ([s[0]] + rest[0]) + Concat(rest[1..]);
      }
    }
  }

  function TrimEach(parts: seq<string>): (r: seq<string>)
    ensures |r| == |parts|
    ensures forall i :: 0 <= i < |r| ==> r[i] == Trim(parts[i])
  {
    if parts == [] then [] else [Trim(parts[0])] + TrimEach(parts[1..])
  }

  /** `.filter(k => k.length > 0)`: each non-empty part as often as it occurs. */
  function NonEmpty(parts: seq<string>): (r: seq<string>)
    ensures forall x :: x in r <==> x in parts && x != ""
    ensures forall x :: multiset(r)[x] == if x != "" then multiset(parts)[x] else 0
  {
    if parts == [] then []
    else
      assert parts == [parts[0]] + parts[1..];
      if parts[0] == "" then NonEmpty(parts[1..])
      else [parts[0]] + NonEmpty(parts[1..])
  }

  /** The filter keeps the order: filtering two parts is filtering each. */
  lemma {:induction false} NonEmptyConcat(a: seq<string>, b: seq<string>)
    ensures NonEmpty(a + b) == NonEmpty(a) + NonEmpty(b)
  {
    if a == [] {
      assert a + b == b;
    } else {
      assert (a + b)[0] == a[0] && (a + b)[1..] == a[1..] + b;
      NonEmptyConcat(a[1..], b);
    }
  }

  lemma {:induction false} NonEmptyLength(parts: seq<string>)
    ensures |NonEmpty(parts)| <= |parts|
  {
    if parts != [] {
      NonEmptyLength(parts[1..]);
    }
  }

  /** Dropping empty parts does not change what they spell. */
  lemma {:induction false} ConcatNonEmpty(parts: seq<string>)
    ensures Concat(NonEmpty(parts)) == Concat(parts)
  {
    if parts != [] {
      var tail := NonEmpty(parts[1..]);
      ConcatNonEmpty(parts[1..]);
      assert Concat(parts) == parts[0] + Concat(parts[1..]);
      if parts[0] == "" {
        assert NonEmpty(parts) == tail;
        assert parts[0] + Concat(parts[1..]) == Concat(parts[1..]);
      } else {
        assert NonEmpty(parts) == [parts[0]] + tail;
        assert ([parts[0]] + tail)[1..] == tail;
      }
    }
  }

  /** Trimming the parts drops only white space. */
  lemma {:induction false} VisibleConcatTrimEach(parts: seq<string>)
    ensures Visible(Concat(TrimEach(parts))) == Visible(Concat(parts))
  {
    if parts != [] {
      VisibleConcatTrimEach(parts[1..]);
      var t := TrimEach(parts);
      assert t[1..] == TrimEach(parts[1..]);
      VisibleConcat(t[0], Concat(t[1..]));
      VisibleConcat(parts[0], Concat(parts[1..]));
      TrimVisible(parts[0]);
    }
  }

  /** A keyword as cleanKeywords emits it. */
  predicate GoodKeyword(k: string) {
    k != "" && Trimmed(k) && NoSeparator(k)
  }

  /** The entries of cleanKeywords' result: good keywords that, ignoring white
      space, spell out the input without its separators, in order. */
  function KeywordList(s: string): (r: seq<string>)
    ensures forall i :: 0 <= i < |r| ==> GoodKeyword(r[i])
    ensures Visible(Concat(r)) == Visible(Strip(s))
    ensures |r| <= |s| - |Strip(s)| + 1
  {
    var pieces := SplitKeywords(s);
    var r := NonEmpty(TrimEach(pieces));
    SplitKeywordsSpells(s);
    ConcatNonEmpty(TrimEach(pieces));
    VisibleConcatTrimEach(pieces);
    NonEmptyLength(TrimEach(pieces));
    forall i | 0 <= i < |r| ensures GoodKeyword(r[i]) {
      assert r[i] in TrimEach(pieces);
      var j :| 0 <= j < |pieces| && TrimEach(pieces)[j] == r[i];
      TrimKeepsNoSeparator(pieces[j]);
    }
    r
  }

  lemma TrimKeepsNoSeparator(s: string)
    requires NoSeparator(s)
    ensures NoSeparator(Trim(s))
  {
    var r := Trim(s);
    var i := |s| - |TrimStart(s)|;
    TrimCut(s);
    forall j | 0 <= j < |r| ensures !IsKeywordSeparator(r[j]) {
      assert r[j] == s[i + j];
    }
  }

  /** `cleanKeywords`: '' for a missing (falsy) value; otherwise the trimmed, non-empty
      pieces between ',' and ';', joined by ', '. The result is empty exactly when
      there are no such pieces; splitting it again gives the same pieces; and,
      ignoring separators and white space, it spells out the input. */
  function CleanKeywords(keywords: Option<string>): (r: string)
    ensures ';' !in r
    ensures r != "" ==> forall e :: e in TrimEach(SplitKeywords(r)) ==> GoodKeyword(e)
    ensures r == "" <==> keywords.None? || KeywordList(keywords.value) == []
    ensures r != "" ==> TrimEach(SplitKeywords(r)) == KeywordList(keywords.value)
    ensures r != "" ==> r == Join(TrimEach(SplitKeywords(r)), ", ")
    ensures r != "" ==> r == Join(KeywordList(keywords.value), ", ")
    ensures keywords.Some? ==> Visible(Strip(r)) == Visible(Strip(keywords.value))
  {
    if keywords.None? || keywords.value == "" then
      KeywordListOfEmpty();
      ""
    else
      var list := KeywordList(keywords.value);
      var r := Join(list, ", ");
      assert forall i :: 0 <= i < |list| ==> ';' !in list[i] by {
        forall i | 0 <= i < |list| ensures ';' !in list[i] {
          assert GoodKeyword(list[i]);
        }
      }
      JoinChars(list, ", ", ';');
      VisibleStripJoin(list);
      if list == [] then r
      else
        PiecesOfJoin(list);
        JoinStartsWithFirst(list, ", ");
        assert list[0] != "";
        r
  }

  /** The empty string has no keywords. */
  lemma KeywordListOfEmpty()
    ensures KeywordList("") == []
  {
    assert SplitKeywords("") == [""];
    assert TrimEach([""]) == [Trim("")];
    assert NonEmpty([""]) == [];
  }

  lemma {:induction false} StripConcat(a: string, b: string)
    ensures Strip(a + b) == Strip(a) + Strip(b)
  {
    if a == [] {
      assert a + b == b;
    } else {
      assert (a + b)[0] == a[0] && (a + b)[1..] == a[1..] + b;
      StripConcat(a[1..], b);
    }
  }

  lemma {:induction false} StripNoSeparator(s: string)
    requires NoSeparator(s)
    ensures Strip(s) == s
  {
    if s != [] {
      StripNoSeparator(s[1..]);
      assert [s[0]] + s[1..] == s;
    }
  }

  lemma StripCommaSpace(j: string)
    ensures Strip(", " + j) == [' '] + Strip(j)
  {
    assert ", " + j == [','] + ([' '] + j);
    assert ([','] + ([' '] + j))[1..] == [' '] + j;
    assert ([' '] + j)[1..] == j;
  }

  /** Ignoring separators and white space, a ', ' join spells its parts end to end. */
  lemma {:induction false} VisibleStripJoin(list: seq<string>)
    requires forall i :: 0 <= i < |list| ==> NoSeparator(list[i])
    ensures Visible(Strip(Join(list, ", "))) == Visible(Concat(list))
  {
    if |list| == 1 {
      StripNoSeparator(list[0]);
      assert Concat(list) == list[0] + Concat([]);
      assert list[0] + [] == list[0];
    } else if |list| > 1 {
      var x := list[0];
      var tl := list[1..];
      VisibleStripJoin(tl);
      StripNoSeparator(x);
      var j := Join(tl, ", ");
      assert Join(list, ", ") == x + (", " + j);
      StripConcat(x, ", " + j);
      StripCommaSpace(j);
      VisibleConcat(x, [' '] + Strip(j));
      assert ([' '] + Strip(j))[1..] == Strip(j);
      assert Concat(list) == x + Concat(tl);
      VisibleConcat(x, Concat(tl));
    }
  }

  /** Splitting a piece that contains no separator gives that piece alone. */
  lemma {:induction false} SplitNoSeparator(p: string)
    requires NoSeparator(p)
    ensures SplitKeywords(p) == [p]
  {
    if p != [] {
      SplitNoSeparator(p[1..]);
      assert [p[0]] + p[1..] == p;
    }
  }

  /** A separator-free prefix sticks to the first piece. */
  lemma {:induction false} SplitAfterPrefix(p: string, t: string)
    requires NoSeparator(p)
    ensures SplitKeywords(p + t) == [p + SplitKeywords(t)[0]] + SplitKeywords(t)[1..]
  {
    if p == [] {
      var sp := SplitKeywords(t);
      assert p + t == t && p + sp[0] == sp[0];
      assert sp == [sp[0]] + sp[1..];
    } else {
      assert (p + t)[1..] == p[1..] + t;
      assert !IsKeywordSeparator(p[0]);
      SplitAfterPrefix(p[1..], t);
      assert [p[0]] + (p[1..] + SplitKeywords(t)[0]) == p + SplitKeywords(t)[0];
    }
  }

  /** A space in front does not change the trimmed pieces. */
  lemma SpaceBeforePieces(x: string)
    ensures TrimEach(SplitKeywords([' '] + x)) == TrimEach(SplitKeywords(x))
  {
    var sp := SplitKeywords(x);
    assert ([' '] + x)[1..] == x;
    assert !IsKeywordSeparator(' ');
    assert SplitKeywords([' '] + x) == [[' '] + sp[0]] + sp[1..];
    assert IsWhitespace(' ');
    TrimAfterWhitespace(' ', sp[0]);
    assert sp == [sp[0]] + sp[1..];
  }

  /** Splitting at the first ", " of a join. */
  lemma SplitAtComma(p: string, rest: string)
    requires NoSeparator(p)
    ensures SplitKeywords(p + ", " + rest) == [p] + SplitKeywords([' '] + rest)
  {
    var x := [' '] + rest;
    var t := [','] + x;
    assert p + ", " + rest == p + t by {
      assert ", " == [','] + [' '];
      assert (p + ", ") + rest == p + (", " + rest);
      assert ", " + rest == t;
    }
    SplitAfterPrefix(p, t);
    var st := SplitKeywords(t);
    SplitAtSeparator(',', x);
    assert st[0] == "" && st[1..] == SplitKeywords(x);
    assert p + st[0] == p;
  }

  /** `split` cuts at the first separator: the text before it is the first piece,
      and the pieces of the text after it follow. */
  lemma SplitAtFirstSeparator(p: string, c: char, x: string)
    requires NoSeparator(p) && IsKeywordSeparator(c)
    ensures SplitKeywords(p + [c] + x) == [p] + SplitKeywords(x)
  {
    assert p + [c] + x == p + ([c] + x);
    SplitAfterPrefix(p, [c] + x);
    SplitAtSeparator(c, x);
    assert p + "" == p;
  }

  /** The keyword a separator-free piece contributes: its trimmed text, or none
      when that is empty. */
  function PieceKeyword(p: string): (r: seq<string>)
    ensures |r| <= 1
    ensures r == [] <==> Trim(p) == ""
    ensures r != [] ==> r[0] == Trim(p)
  {
    if Trim(p) == "" then [] else [Trim(p)]
  }

  lemma NonEmptyOne(t: string)
    ensures NonEmpty([t]) == if t == "" then [] else [t]
  {
    assert [t][1..] == [];
  }

  /** A text without separators gives its trimmed self as its only keyword, or no
      keyword when it is blank. */
  lemma KeywordListOfPiece(p: string)
    requires NoSeparator(p)
    ensures KeywordList(p) == PieceKeyword(p)
  {
    SplitNoSeparator(p);
    assert [p] + [] == [p];
    TrimEachCons(p, []);
    assert [Trim(p)] + [] == [Trim(p)];
    NonEmptyOne(Trim(p));
  }

  /** The keywords of a text are those of the piece before its first separator,
      followed by those of the text after it. */
  lemma KeywordListAtSeparator(p: string, c: char, x: string)
    requires NoSeparator(p) && IsKeywordSeparator(c)
    ensures KeywordList(p + [c] + x) == PieceKeyword(p) + KeywordList(x)
  {
    SplitAtFirstSeparator(p, c, x);
    TrimEachCons(p, SplitKeywords(x));
    NonEmptyConcat([Trim(p)], TrimEach(SplitKeywords(x)));
    NonEmptyOne(Trim(p));
  }

  /** A separator in front opens an empty first piece. */
  lemma SplitAtSeparator(c: char, x: string)
    requires IsKeywordSeparator(c)
    ensures SplitKeywords([c] + x) == [""] + SplitKeywords(x)
  {
    assert ([c] + x)[1..] == x;
  }

  lemma TrimEachCons(x: string, t: seq<string>)
    ensures TrimEach([x] + t) == [Trim(x)] + TrimEach(t)
  {
    assert ([x] + t)[1..] == t;
  }

  /** One keyword in front of a join adds exactly that keyword to the pieces. */
  lemma PiecesStep(p: string, rest: string)
    requires GoodKeyword(p)
    ensures TrimEach(SplitKeywords(p + ", " + rest)) == [p] + TrimEach(SplitKeywords(rest))
  {
    SplitAtComma(p, rest);
    TrimEachCons(p, SplitKeywords([' '] + rest));
    SpaceBeforePieces(rest);
    TrimOfTrimmed(p);
  }

  /** Splitting a non-empty join of good keywords and trimming the pieces gives
      the keywords back. */
  lemma {:induction false} PiecesOfJoin(list: seq<string>)
    requires list != []
    requires forall i :: 0 <= i < |list| ==> GoodKeyword(list[i])
    ensures TrimEach(SplitKeywords(Join(list, ", "))) == list
  {
    var p := list[0];
    assert GoodKeyword(p);
    if |list| == 1 {
      SplitNoSeparator(p);
      TrimOfTrimmed(p);
      TrimEachCons(p, []);
    } else {
      var tl := list[1..];
      assert forall i :: 0 <= i < |tl| ==> GoodKeyword(tl[i]) by {
        forall i | 0 <= i < |tl| ensures GoodKeyword(tl[i]) {
          assert tl[i] == list[i + 1];
        }
      }
      PiecesOfJoin(tl);
      var rest := Join(tl, ", ");
      var j := Join(list, ", ");
      assert j == p + ", " + rest;
      PiecesStep(p, rest);
      assert TrimEach(SplitKeywords(j)) == [p] + TrimEach(SplitKeywords(rest));
      assert [p] + tl == list;
    }
  }

  lemma {:induction false} NonEmptyKeepsAll(list: seq<string>)
    requires forall i :: 0 <= i < |list| ==> list[i] != ""
    ensures NonEmpty(list) == list
  {
    if list != [] {
      NonEmptyKeepsAll(list[1..]);
      assert list == [list[0]] + list[1..];
    }
  }

  /** The keyword list of a joined list of good keywords is that list again. */
  lemma KeywordsFixpoint(list: seq<string>)
    requires forall i :: 0 <= i < |list| ==> GoodKeyword(list[i])
    ensures KeywordList(Join(list, ", ")) == list
  {
    if list == [] {
      assert TrimEach([""]) == [""];
    } else {
      PiecesOfJoin(list);
      NonEmptyKeepsAll(list);
    }
  }

  /** `cleanKeywords` is idempotent. */
  lemma CleanKeywordsIdempotent(keywords: Option<string>)
    ensures CleanKeywords(Some(CleanKeywords(keywords))) == CleanKeywords(keywords)
  {
    var r := CleanKeywords(keywords);
    if r != "" {
      var list := KeywordList(keywords.value);
      KeywordsFixpoint(list);
    }
  }

  // ---------------------------------------------------------------------------
  // Per-sheet rules: what one row contributes

  /** One element of `knowledgeData`. `categoria` is never null in this script. */
  datatype Item = Item(
    titulo: Option<string>,
    contenido: string,
    categoria: string,
    pclave: Option<string>,
    urls: Option<string>)

  /** What a row does: pushes an item (and counts it in `totalProcessed`), counts
      in `skipped`, or leaves both counters alone. */
  datatype RowOutcome = Emit(item: Item) | Skip | Ignore

  /** A cell as the sheet reader returns it; None for an absent or empty cell. */
  type Cell = Option<string>

  datatype SabiduriaRow = SabiduriaRow(descripcion: Cell, palabrasClave: Cell)
  datatype CienciaRow = CienciaRow(columna1: Cell, columna2: Cell, columna12: Cell, columna13: Cell)
  datatype LiberalismoRow = LiberalismoRow(c: Cell, d: Cell, e: Cell)
  datatype PsicologiaRow = PsicologiaRow(columna2: Cell, columna3: Cell)
  /** Columns B and C of the "internet" and "Feminismo, idealismo, comunismo" sheets. */
  datatype PairRow = PairRow(b: Cell, c: Cell)

  const Sabiduria := "Sabidur\U{ED}a"
  const Psicologia := "Psicolog\U{ED}a"
  const FrasesCelebres := "Frases c\U{E9}lebres"
  const FrasesKeywords := "frases, humor, c\U{E9}lebres"
  const Feminismo := "Feminismo e Ideolog\U{ED}a"
  const SinCategoria := "Sin categor\U{ED}a"
  /** The further sheets, in the order they are processed. */
  const OtherSheets: seq<string> := ["FULLSTACK", "Vaciles Buenos", "Biolog\U{ED}a",
    "Love-Podcast", "Calentamiento Global", "Debatir", "BitCoin"]

  /** The content of an emitted item is cleaned text longer than `min`. */
  predicate Accepted(item: Item, min: nat) {
    Clean(item.contenido) && |item.contenido| > min
  }

  /** Sabiduría: the cleaned description when longer than 10; every other row is a skip. */
  function SabiduriaRule(row: SabiduriaRow): (r: RowOutcome)
    ensures !r.Ignore?
    ensures r.Emit? <==> |CleanText(row.descripcion)| > 10
    ensures r.Emit? ==> Accepted(r.item, 10) && r.item.categoria == Sabiduria
    ensures r.Emit? ==> r.item.contenido == CleanText(row.descripcion)
    ensures r.Emit? ==> Visible(r.item.contenido) == Visible(row.descripcion.value)
    ensures r.Emit? ==> r.item.pclave == Some(CleanKeywords(row.palabrasClave))
    ensures r.Emit? ==> r.item.titulo.None? && r.item.urls.None?
  {
    var descripcion := CleanText(row.descripcion);
    if descripcion != "" && |descripcion| > 10 then
      Emit(Item(None, descripcion, Sabiduria, Some(CleanKeywords(row.palabrasClave)), None))
    else Skip
  }

  predicate IsHttp(u: string) {
    u != "" && StartsWith(u, "http")
  }

  /** `.filter(url => url && url.startsWith('http'))`. */
  function HttpOnly(urls: seq<string>): (r: seq<string>)
    ensures forall i :: 0 <= i < |r| ==> IsHttp(r[i])
    ensures forall u :: u in r <==> u in urls && IsHttp(u)
  {
    if urls == [] then []
    else (if IsHttp(urls[0]) then [urls[0]] else []) + HttpOnly(urls[1..])
  }

  /** The filter keeps every http URL as often as it occurs and nothing else. */
  lemma {:induction false} HttpOnlyMultiset(urls: seq<string>)
    ensures forall u :: multiset(HttpOnly(urls))[u] == if IsHttp(u) then multiset(urls)[u] else 0
  {
    if urls != [] {
      HttpOnlyMultiset(urls[1..]);
      assert urls == [urls[0]] + urls[1..];
    }
  }

  /** The filter keeps the URLs of each part in place, in order. */
  lemma {:induction false} HttpOnlyConcat(a: seq<string>, b: seq<string>)
    ensures HttpOnly(a + b) == HttpOnly(a) + HttpOnly(b)
  {
    if a != [] {
      var head := if IsHttp(a[0]) then [a[0]] else [];
      assert (a + b)[0] == a[0] && (a + b)[1..] == a[1..] + b;
      assert HttpOnly(a + b) == head + HttpOnly(a[1..] + b);
      HttpOnlyConcat(a[1..], b);
      assert HttpOnly(a) == head + HttpOnly(a[1..]);
      assert head + (HttpOnly(a[1..]) + HttpOnly(b)) == (head + HttpOnly(a[1..])) + HttpOnly(b);
    } else {
      assert a + b == b;
    }
  }

  /** A join starts with its first part. */
  lemma JoinStartsWithFirst(parts: seq<string>, sep: string)
    requires parts != []
    ensures StartsWith(Join(parts, sep), parts[0])
  {
    if |parts| > 1 {
      var j := Join(parts, sep);
      assert j == parts[0] + (sep + Join(parts[1..], sep));
      assert j[..|parts[0]|] == parts[0];
    }
  }

  /** `[...].filter(http).join(', ') || null`: null exactly when no candidate is an
      http URL; otherwise a string that starts with "http" and contains each of them. */
  function JoinedUrls(urls: seq<string>): (r: Option<string>)
    ensures r.None? <==> forall u :: u in urls ==> !IsHttp(u)
    ensures r.Some? ==> StartsWith(r.value, "http")
    ensures r.Some? ==> forall u :: u in urls && IsHttp(u) ==> Contains(r.value, u)
    ensures r.Some? ==> r.value == Join(HttpOnly(urls), ", ")
  {
    var kept := HttpOnly(urls);
    var joined := Join(kept, ", ");
    HttpJoinFacts(urls, kept);
    if joined == "" then None else Some(joined)
  }

  lemma HttpJoinFacts(urls: seq<string>, kept: seq<string>)
    requires kept == HttpOnly(urls)
    ensures kept != [] ==> Join(kept, ", ") != "" && StartsWith(Join(kept, ", "), "http")
    ensures kept == [] ==> Join(kept, ", ") == ""
    ensures forall u :: u in urls && IsHttp(u) ==> Contains(Join(kept, ", "), u)
  {
    var joined := Join(kept, ", ");
    if kept != [] {
      JoinStartsWithFirst(kept, ", ");
      assert IsHttp(kept[0]);
      assert joined[..4] == kept[0][..4];
      forall u | u in urls && IsHttp(u) ensures Contains(joined, u) {
        var k :| 0 <= k < |kept| && kept[k] == u;
        JoinContainsPart(kept, ", ", k);
      }
    }
  }

  /** The longer of the main text and the extra description, the main text on a tie. */
  function LongerText(contenido: string, extra: string): (r: string)
    ensures |r| >= |contenido|
    ensures r == extra <==> |extra| > |contenido| || extra == contenido
    ensures r != extra ==> r == contenido
  {
    if extra != "" && |extra| > |contenido| then extra else contenido
  }

  /** Ciencia: Columna1 is the main text (longer than 10, else a skip); Columna13
      replaces it when strictly longer; it is also the title when under 100
      characters; Columna12 and Columna2 are the URL candidates. */
  function CienciaRule(row: CienciaRow): (r: RowOutcome)
    ensures !r.Ignore?
    ensures r.Emit? <==> |CleanText(row.columna1)| > 10
    ensures r.Emit? ==> Accepted(r.item, 10) && r.item.categoria == "Ciencia"
    ensures r.Emit? ==> |r.item.contenido| >= |CleanText(row.columna1)|
    ensures r.Emit? && |CleanText(row.columna13)| > |CleanText(row.columna1)| ==>
      r.item.contenido == CleanText(row.columna13)
    ensures r.Emit? && |CleanText(row.columna13)| <= |CleanText(row.columna1)| ==>
      r.item.contenido == CleanText(row.columna1)
    ensures r.Emit? ==> (r.item.titulo.Some? <==> |CleanText(row.columna1)| < 100)
    ensures r.Emit? && r.item.titulo.Some? ==> r.item.titulo.value == CleanText(row.columna1)
    ensures r.Emit? ==> r.item.pclave.None?
    ensures r.Emit? ==> r.item.urls == JoinedUrls([CleanText(row.columna12), CleanText(row.columna2)])
    ensures r.Emit? && r.item.urls.Some? ==> StartsWith(r.item.urls.value, "http")
    ensures r.Emit? ==> (r.item.urls.None? <==>
      !IsHttp(CleanText(row.columna12)) && !IsHttp(CleanText(row.columna2)))
  {
    var contenido := CleanText(row.columna1);
    var descripcionExtra := CleanText(row.columna13);
    var url1 := CleanText(row.columna12);
    var url2 := CleanText(row.columna2);
    if contenido != "" && |contenido| > 10 then
      Emit(Item(
        if |contenido| < 100 then Some(contenido) else None,
        LongerText(contenido, descripcionExtra),
        "Ciencia",
        None,
        JoinedUrls([url1, url2])))
    else Skip
  }

  /** Liberalismo (columns C, D, E): content longer than 20 is pushed; a shorter
      non-empty one is a skip; an empty one is passed over. */
  function LiberalismoRule(row: LiberalismoRow): (r: RowOutcome)
    ensures r.Emit? <==> |CleanText(row.c)| > 20
    ensures r.Skip? <==> 0 < |CleanText(row.c)| <= 20
    ensures r.Ignore? <==> CleanText(row.c) == ""
    ensures r.Emit? ==> Accepted(r.item, 20) && r.item.categoria == "Liberalismo"
    ensures r.Emit? ==> r.item.contenido == CleanText(row.c) && r.item.titulo.None?
    ensures r.Emit? ==> r.item.pclave == Some(CleanKeywords(Some(CleanText(row.d))))
    ensures r.Emit? ==> (r.item.urls.Some? <==> IsHttp(CleanText(row.e)))
    ensures r.Emit? && r.item.urls.Some? ==> r.item.urls.value == CleanText(row.e)
  {
    var contenido := CleanText(row.c);
    var palabrasClave := CleanText(row.d);
    var url := CleanText(row.e);
    if contenido != "" && |contenido| > 20 then
      Emit(Item(None, contenido, "Liberalismo", Some(CleanKeywords(Some(palabrasClave))),
        if IsHttp(url) then Some(url) else None))
    else if contenido != "" then Skip
    else Ignore
  }

  /** Psicología: content longer than 10, filed under the row's own category when
      it has one; every other row is a skip. */
  function PsicologiaRule(row: PsicologiaRow): (r: RowOutcome)
    ensures !r.Ignore?
    ensures r.Emit? <==> |CleanText(row.columna2)| > 10
    ensures r.Emit? ==> Accepted(r.item, 10) && r.item.categoria != ""
    ensures r.Emit? && CleanText(row.columna3) != "" ==> r.item.categoria == CleanText(row.columna3)
    ensures r.Emit? && CleanText(row.columna3) == "" ==> r.item.categoria == Psicologia
    ensures r.Emit? ==> r.item.contenido == CleanText(row.columna2)
    ensures r.Emit? ==> r.item.titulo.None? && r.item.pclave.None? && r.item.urls.None?
  {
    var contenido := CleanText(row.columna2);
    var categoria := CleanText(row.columna3);
    if contenido != "" && |contenido| > 10 then
      Emit(Item(None, contenido, if categoria != "" then categoria else Psicologia, None, None))
    else Skip
  }

  /** The "internet" and "Feminismo, idealismo, comunismo" sheets: column B longer
      than 20 is pushed under `categoria` with column C as keywords; a shorter
      non-empty one is a skip; an empty one is passed over. */
  function PairRule(row: PairRow, categoria: string): (r: RowOutcome)
    ensures r.Emit? <==> |CleanText(row.b)| > 20
    ensures r.Skip? <==> 0 < |CleanText(row.b)| <= 20
    ensures r.Ignore? <==> CleanText(row.b) == ""
    ensures r.Emit? ==> Accepted(r.item, 20) && r.item.categoria == categoria
    ensures r.Emit? ==> r.item.contenido == CleanText(row.b)
    ensures r.Emit? ==> r.item.pclave == Some(CleanKeywords(Some(CleanText(row.c))))
    ensures r.Emit? ==> r.item.titulo.None? && r.item.urls.None?
  {
    var contenido := CleanText(row.b);
    var palabrasClave := CleanText(row.c);
    if contenido != "" && |contenido| > 20 then
      Emit(Item(None, contenido, categoria, Some(CleanKeywords(Some(palabrasClave))), None))
    else if contenido != "" then Skip
    else Ignore
  }

  /** Frases célebres (column B): content longer than 5 with fixed keywords; every
      other row, empty or not, is a skip. */
  function FrasesRule(b: Cell): (r: RowOutcome)
    ensures !r.Ignore?
    ensures r.Emit? <==> |CleanText(b)| > 5
    ensures r.Emit? ==> Accepted(r.item, 5) && r.item.categoria == FrasesCelebres
    ensures r.Emit? ==> r.item.pclave == Some(FrasesKeywords)
    ensures r.Emit? ==> r.item.contenido == CleanText(b)
    ensures r.Emit? ==> r.item.titulo.None? && r.item.urls.None?
  {
    var contenido := CleanText(b);
    if contenido != "" && |contenido| > 5 then
      Emit(Item(None, contenido, FrasesCelebres, Some(FrasesKeywords), None))
    else Skip
  }

  /** A cell whose trimmed text is longer than 20. */
  predicate Substantial(cell: Cell) {
    cell.Some? && cell.value != "" && |Trim(cell.value)| > 20
  }

  /** `row.find(cell => cell && String(cell).trim().length > 20)`, as an index. */
  function FirstSubstantial(row: seq<Cell>): (r: Option<nat>)
    ensures r.Some? ==> r.value < |row| && Substantial(row[r.value])
    ensures r.Some? ==> forall j :: 0 <= j < r.value ==> !Substantial(row[j])
    ensures r.None? ==> forall j :: 0 <= j < |row| ==> !Substantial(row[j])
  {
    if row == [] then None
    else if Substantial(row[0]) then Some(0)
    else match FirstSubstantial(row[1..]) {
      case None => None
      case Some(k) => Some(k + 1)
    }
  }

  /** The further sheets: the first substantial cell of the row, cleaned, is pushed
      under the sheet's name when still longer than 20; no row is ever a skip. */
  function OtherRule(row: seq<Cell>, sheetName: string): (r: RowOutcome)
    ensures !r.Skip?
    ensures r.Emit? <==> (FirstSubstantial(row).Some? &&
      |CleanText(row[FirstSubstantial(row).value])| > 20)
    ensures r.Emit? ==> r.item.contenido == CleanText(row[FirstSubstantial(row).value])
    ensures r.Emit? ==> Accepted(r.item, 20) && r.item.categoria == sheetName
    ensures r.Emit? ==> r.item.titulo.None? && r.item.pclave.None? && r.item.urls.None?
  {
    match FirstSubstantial(row) {
      case None => Ignore
      case Some(k) =>
        var cleanedContent := CleanText(row[k]);
        if |cleanedContent| > 20 then
          Emit(Item(None, cleanedContent, sheetName, None, None))
        else Ignore
    }
  }

  // ---------------------------------------------------------------------------
  // The row loops and the counters

  function EmitOf(o: RowOutcome): seq<Item> {
    if o.Emit? then [o.item] else []
  }

  /** The items a sequence of rows pushes, in row order. */
  function Emitted<R>(rows: seq<R>, rule: R -> RowOutcome): (r: seq<Item>)
    ensures |r| <= |rows|
  {
    if rows == [] then []
    else Emitted(rows[..|rows| - 1], rule) + EmitOf(rule(rows[|rows| - 1]))
  }

  /** The number of rows counted as skipped. */
  function SkipCount<R>(rows: seq<R>, rule: R -> RowOutcome): nat {
    if rows == [] then 0
    else SkipCount(rows[..|rows| - 1], rule) + (if rule(rows[|rows| - 1]).Skip? then 1 else 0)
  }

  /** The number of rows that touch neither counter. */
  function IgnoreCount<R>(rows: seq<R>, rule: R -> RowOutcome): nat {
    if rows == [] then 0
    else IgnoreCount(rows[..|rows| - 1], rule) + (if rule(rows[|rows| - 1]).Ignore? then 1 else 0)
  }

  /** Every row is pushed, skipped or passed over, exactly one of the three. */
  lemma {:induction false} OutcomesPartitionRows<R>(rows: seq<R>, rule: R -> RowOutcome)
    ensures |Emitted(rows, rule)| + SkipCount(rows, rule) + IgnoreCount(rows, rule) == |rows|
  {
    if rows != [] {
      OutcomesPartitionRows(rows[..|rows| - 1], rule);
    }
  }

  /** A rule that never passes a row over counts every rejected row as a skip. */
  lemma RejectedRowsAreSkipped<R>(rows: seq<R>, rule: R -> RowOutcome)
    requires forall x :: !rule(x).Ignore?
    ensures SkipCount(rows, rule) == |rows| - |Emitted(rows, rule)|
  {
    OutcomesPartitionRows(rows, rule);
    NoIgnored(rows, rule);
  }

  lemma {:induction false} NoIgnored<R>(rows: seq<R>, rule: R -> RowOutcome)
    requires forall x :: !rule(x).Ignore?
    ensures IgnoreCount(rows, rule) == 0
  {
    if rows != [] {
      NoIgnored(rows[..|rows| - 1], rule);
    }
  }

  /** What holds of every item a rule pushes holds of every item of its sheet. */
  lemma {:induction false} EmittedAccepted<R>(rows: seq<R>, rule: R -> RowOutcome, min: nat)
    requires forall x :: rule(x).Emit? ==> Accepted(rule(x).item, min) && rule(x).item.categoria != ""
    ensures forall i :: 0 <= i < |Emitted(rows, rule)| ==>
      Accepted(Emitted(rows, rule)[i], min) && Emitted(rows, rule)[i].categoria != ""
  {
    if rows != [] {
      EmittedAccepted(rows[..|rows| - 1], rule, min);
    }
  }

  /** One sheet's row loop (`forEach` or `for`): pushes each emitted item, counting
      it in `totalProcessed`, and counts the skips. */
  method ProcessRows<R>(rows: seq<R>, rule: R -> RowOutcome, data: seq<Item>, total: nat, skipped: nat)
    returns (data': seq<Item>, total': nat, skipped': nat)
    ensures data' == data + Emitted(rows, rule)
    ensures total' == total + |Emitted(rows, rule)|
    ensures skipped' == skipped + SkipCount(rows, rule)
  {
    data', total', skipped' := data, total, skipped;
    for i := 0 to |rows|
      invariant data' == data + Emitted(rows[..i], rule)
      invariant total' == total + |Emitted(rows[..i], rule)|
      invariant skipped' == skipped + SkipCount(rows[..i], rule)
    {
      assert rows[..i + 1][..i] == rows[..i];
      match rule(rows[i]) {
        case Emit(item) =>
          data' := data' + [item];
          total' := total' + 1;
        case Skip =>
          skipped' := skipped' + 1;
        case Ignore =>
      }
    }
    assert rows[..|rows|] == rows;
  }

  /** The workbook: each named sheet the script knows is present or not; the
      further sheets are looked up by name. */
  datatype Workbook = Workbook(
    sabiduria: Option<seq<SabiduriaRow>>,
    ciencia: Option<seq<CienciaRow>>,
    liberalismo: Option<seq<LiberalismoRow>>,
    psicologia: Option<seq<PsicologiaRow>>,
    internet: Option<seq<PairRow>>,
    frases: Option<seq<Cell>>,
    feminismo: Option<seq<PairRow>>,
    others: map<string, seq<seq<Cell>>>)

  function SheetItems<R>(sheet: Option<seq<R>>, rule: R -> RowOutcome): seq<Item> {
    if sheet.None? then [] else Emitted(sheet.value, rule)
  }

  function SheetSkips<R>(sheet: Option<seq<R>>, rule: R -> RowOutcome): nat {
    if sheet.None? then 0 else SkipCount(sheet.value, rule)
  }

  function OtherSheet(others: map<string, seq<seq<Cell>>>, name: string): Option<seq<seq<Cell>>> {
    if name in others then Some(others[name]) else None
  }

  function OtherRuleFor(name: string): seq<Cell> -> RowOutcome {
    row => OtherRule(row, name)
  }

  /** The items of the further sheets, in the order of `names`, each sheet's rows
      under the rule `ruleFor` gives for its name. */
  function OtherItems(others: map<string, seq<seq<Cell>>>, names: seq<string>, ruleFor: string -> (seq<Cell> -> RowOutcome)): seq<Item> {
    if names == [] then []
    else
      var name := names[|names| - 1];
      OtherItems(others, names[..|names| - 1], ruleFor) + SheetItems(OtherSheet(others, name), ruleFor(name))
  }

  /** The "internet" sheet: column B longer than 20 is filed under 'Internet'. */
  function InternetRule(row: PairRow): (r: RowOutcome)
    ensures r.Emit? <==> |CleanText(row.b)| > 20
    ensures r.Skip? <==> 0 < |CleanText(row.b)| <= 20
    ensures r.Emit? ==> r.item.categoria == "Internet" && r.item.contenido == CleanText(row.b)
  { PairRule(row, "Internet") }

  /** The "Feminismo, idealismo, comunismo" sheet: column B longer than 20 is filed
      under 'Feminismo e Ideología'. */
  function FeminismoRule(row: PairRow): (r: RowOutcome)
    ensures r.Emit? <==> |CleanText(row.b)| > 20
    ensures r.Skip? <==> 0 < |CleanText(row.b)| <= 20
    ensures r.Emit? ==> r.item.categoria == Feminismo && r.item.contenido == CleanText(row.b)
  { PairRule(row, Feminismo) }

  /** The items of the seven named sheets, in processing order. */
  function NamedItems(wb: Workbook): seq<Item> {
    SheetItems(wb.sabiduria, SabiduriaRule) + SheetItems(wb.ciencia, CienciaRule)
    + SheetItems(wb.liberalismo, LiberalismoRule) + SheetItems(wb.psicologia, PsicologiaRule)
    + SheetItems(wb.internet, InternetRule) + SheetItems(wb.frases, FrasesRule)
    + SheetItems(wb.feminismo, FeminismoRule)
  }

  function NamedSkips(wb: Workbook): nat {
    SheetSkips(wb.sabiduria, SabiduriaRule) + SheetSkips(wb.ciencia, CienciaRule)
    + SheetSkips(wb.liberalismo, LiberalismoRule) + SheetSkips(wb.psicologia, PsicologiaRule)
    + SheetSkips(wb.internet, InternetRule) + SheetSkips(wb.frases, FrasesRule)
    + SheetSkips(wb.feminismo, FeminismoRule)
  }

  /** Every pushed item has cleaned content longer than 5 (the smallest threshold)
      and a non-empty category. */
  predicate AllAccepted(items: seq<Item>) {
    forall i :: 0 <= i < |items| ==> Accepted(items[i], 5) && items[i].categoria != ""
  }

  lemma AcceptedWeaken(items: seq<Item>, min: nat)
    requires min >= 5
    requires forall i :: 0 <= i < |items| ==> Accepted(items[i], min) && items[i].categoria != ""
    ensures AllAccepted(items)
  {
  }

  lemma SheetAccepted<R>(sheet: Option<seq<R>>, rule: R -> RowOutcome, min: nat)
    requires min >= 5
    requires forall x :: rule(x).Emit? ==> Accepted(rule(x).item, min) && rule(x).item.categoria != ""
    ensures AllAccepted(SheetItems(sheet, rule))
  {
    if sheet.Some? {
      EmittedAccepted(sheet.value, rule, min);
      AcceptedWeaken(SheetItems(sheet, rule), min);
    }
  }

  lemma {:induction false} OtherItemsAccepted(others: map<string, seq<seq<Cell>>>, names: seq<string>)
    requires forall i :: 0 <= i < |names| ==> names[i] != ""
    ensures AllAccepted(OtherItems(others, names, OtherRuleFor))
  {
    if names != [] {
      var name := names[|names| - 1];
      OtherItemsAccepted(others, names[..|names| - 1]);
      SheetAccepted(OtherSheet(others, name), OtherRuleFor(name), 20);
    }
  }

  lemma NamedItemsAccepted(wb: Workbook)
    ensures AllAccepted(NamedItems(wb))
  {
    var a1 := SheetItems(wb.sabiduria, SabiduriaRule);
    var a2 := SheetItems(wb.ciencia, CienciaRule);
    var a3 := SheetItems(wb.liberalismo, LiberalismoRule);
    var a4 := SheetItems(wb.psicologia, PsicologiaRule);
    var a5 := SheetItems(wb.internet, InternetRule);
    var a6 := SheetItems(wb.frases, FrasesRule);
    var a7 := SheetItems(wb.feminismo, FeminismoRule);
    SheetAccepted(wb.sabiduria, SabiduriaRule, 10);
    SheetAccepted(wb.ciencia, CienciaRule, 10);
    AllAcceptedConcat(a1, a2);
    SheetAccepted(wb.liberalismo, LiberalismoRule, 20);
    AllAcceptedConcat(a1 + a2, a3);
    SheetAccepted(wb.psicologia, PsicologiaRule, 10);
    AllAcceptedConcat(a1 + a2 + a3, a4);
    SheetAccepted(wb.internet, InternetRule, 20);
    AllAcceptedConcat(a1 + a2 + a3 + a4, a5);
    SheetAccepted(wb.frases, FrasesRule, 5);
    AllAcceptedConcat(a1 + a2 + a3 + a4 + a5, a6);
    SheetAccepted(wb.feminismo, FeminismoRule, 20);
    AllAcceptedConcat(a1 + a2 + a3 + a4 + a5 + a6, a7);
  }

  /** A sheet's block: its row loop when the workbook has the sheet, nothing otherwise. */
  method ProcessSheet<R>(sheet: Option<seq<R>>, rule: R -> RowOutcome, data: seq<Item>, total: nat, skipped: nat)
    returns (data': seq<Item>, total': nat, skipped': nat)
    ensures data' == data + SheetItems(sheet, rule)
    ensures total' == total + |SheetItems(sheet, rule)|
    ensures skipped' == skipped + SheetSkips(sheet, rule)
  {
    if sheet.Some? {
      data', total', skipped' := ProcessRows(sheet.value, rule, data, total, skipped);
    } else {
      data', total', skipped' := data, total, skipped;
    }
  }

  /** The seven named sheets, in the script's order. */
  method ProcessNamedSheets(wb: Workbook) returns (knowledgeData: seq<Item>, totalProcessed: nat, skipped: nat)
    ensures knowledgeData == NamedItems(wb)
    ensures skipped == NamedSkips(wb)
    ensures totalProcessed == |knowledgeData|
  {
    var d1, t1, s1 := ProcessSheet(wb.sabiduria, SabiduriaRule, [], 0, 0);
    assert d1 == SheetItems(wb.sabiduria, SabiduriaRule);
    var d2, t2, s2 := ProcessSheet(wb.ciencia, CienciaRule, d1, t1, s1);
    var d3, t3, s3 := ProcessSheet(wb.liberalismo, LiberalismoRule, d2, t2, s2);
    var d4, t4, s4 := ProcessSheet(wb.psicologia, PsicologiaRule, d3, t3, s3);
    var d5, t5, s5 := ProcessSheet(wb.internet, InternetRule, d4, t4, s4);
    var d6, t6, s6 := ProcessSheet(wb.frases, FrasesRule, d5, t5, s5);
    knowledgeData, totalProcessed, skipped := ProcessSheet(wb.feminismo, FeminismoRule, d6, t6, s6);
  }

  /** One more sheet name adds that sheet's items at the end. */
  lemma OtherItemsStep(others: map<string, seq<seq<Cell>>>, names: seq<string>, ruleFor: string -> (seq<Cell> -> RowOutcome), n: nat)
    requires n < |names|
    ensures OtherItems(others, names[..n + 1], ruleFor)
      == OtherItems(others, names[..n], ruleFor) + SheetItems(OtherSheet(others, names[n]), ruleFor(names[n]))
  {
    assert names[..n + 1][..n] == names[..n];
  }

  /** The `otherSheets.forEach` loop: each further sheet the workbook has, in the
      order of `names`, its rows under the rule for its name. No row of these
      sheets is ever counted as skipped. */
  method ProcessOtherSheets(others: map<string, seq<seq<Cell>>>, names: seq<string>, ruleFor: string -> (seq<Cell> -> RowOutcome),
                            data: seq<Item>, total: nat)
    returns (data': seq<Item>, total': nat)
    ensures data' == data + OtherItems(others, names, ruleFor)
    ensures total' == total + |OtherItems(others, names, ruleFor)|
  {
    data', total' := data, total;
    assert data + OtherItems(others, names[..0], ruleFor) == data;
    for n := 0 to |names|
      invariant data' == data + OtherItems(others, names[..n], ruleFor)
      invariant total' == total + |OtherItems(others, names[..n], ruleFor)|
    {
      OtherItemsStep(others, names, ruleFor, n);
      ghost var before := OtherItems(others, names[..n], ruleFor);
      var noSkips: nat;
      data', total', noSkips := ProcessSheet(OtherSheet(others, names[n]), ruleFor(names[n]), data', total', 0);
      assert data + before + SheetItems(OtherSheet(others, names[n]), ruleFor(names[n]))
        == data + (before + SheetItems(OtherSheet(others, names[n]), ruleFor(names[n])));
    }
    assert names[..|names|] == names;
  }

  /** The whole script: the seven named sheets, then the further sheets in order.
      `totalProcessed` counts exactly the pushed items, all of which are cleaned
      text longer than 5 with a category. */
  method Convert(wb: Workbook) returns (knowledgeData: seq<Item>, totalProcessed: nat, skipped: nat)
    ensures knowledgeData == NamedItems(wb) + OtherItems(wb.others, OtherSheets, OtherRuleFor)
    ensures skipped == NamedSkips(wb)
    ensures totalProcessed == |knowledgeData|
    ensures AllAccepted(knowledgeData)
  {
    var named, namedTotal;
    named, namedTotal, skipped := ProcessNamedSheets(wb);
    knowledgeData, totalProcessed := ProcessOtherSheets(wb.others, OtherSheets, OtherRuleFor, named, namedTotal);
    ScriptItemsAccepted(wb);
  }

  /** Every item the script pushes has cleaned content longer than 5 and a category. */
  lemma ScriptItemsAccepted(wb: Workbook)
    ensures AllAccepted(NamedItems(wb) + OtherItems(wb.others, OtherSheets, OtherRuleFor))
  {
    NamedItemsAccepted(wb);
    OtherItemsAccepted(wb.others, OtherSheets);
    AllAcceptedConcat(NamedItems(wb), OtherItems(wb.others, OtherSheets, OtherRuleFor));
  }

  lemma AllAcceptedConcat(a: seq<Item>, b: seq<Item>)
    requires AllAccepted(a) && AllAccepted(b)
    ensures AllAccepted(a + b)
  {
    forall i | 0 <= i < |a + b| ensures Accepted((a + b)[i], 5) && (a + b)[i].categoria != "" {
      if i < |a| {
        assert (a + b)[i] == a[i];
      } else {
        assert (a + b)[i] == b[i - |a|];
      }
    }
  }

  // ---------------------------------------------------------------------------
  // The category tally: `categoryCounts[cat] = (categoryCounts[cat] || 0) + 1`,
  // then the entries listed by descending count

  /** The key an item is counted under: `item.categoria || 'Sin categoría'`. */
  function Label(item: Item): (r: string)
    ensures r != ""
    ensures item.categoria != "" ==> r == item.categoria
  {
    if item.categoria == "" then SinCategoria else item.categoria
  }

  /** How many of the items are counted under `key`. */
  function CountIn(items: seq<Item>, key: string): nat {
    if items == [] then 0
    else CountIn(items[..|items| - 1], key) + (if Label(items[|items| - 1]) == key then 1 else 0)
  }

  lemma {:induction false} CountInAbsent(items: seq<Item>, key: string)
    requires forall p :: 0 <= p < |items| ==> Label(items[p]) != key
    ensures CountIn(items, key) == 0
  {
    if items != [] {
      CountInAbsent(items[..|items| - 1], key);
    }
  }

  /** One entry of `categoryCounts`. */
  datatype Tally = Tally(categoria: string, count: nat)

  function Total(tallies: seq<Tally>): nat {
    if tallies == [] then 0 else Total(tallies[..|tallies| - 1]) + tallies[|tallies| - 1].count
  }

  /** Raising one entry's count raises the total by as much. */
  lemma {:induction false} TotalUpdate(t: seq<Tally>, j: nat, x: Tally)
    requires j < |t|
    ensures Total(t[j := x]) == Total(t) - t[j].count + x.count
  {
    var u := t[j := x];
    var n := |t| - 1;
    if j == n {
      assert u[..n] == t[..n];
    } else {
      assert u[..n] == t[..n][j := x];
      TotalUpdate(t[..n], j, x);
    }
  }

  /** The position of the entry for `key`, if there is one. */
  function FindLabel(tallies: seq<Tally>, key: string): (r: Option<nat>)
    ensures r.Some? ==> r.value < |tallies| && tallies[r.value].categoria == key
    ensures r.None? ==> forall j :: 0 <= j < |tallies| ==> tallies[j].categoria != key
  {
    if tallies == [] then None
    else if tallies[0].categoria == key then Some(0)
    else match FindLabel(tallies[1..], key) {
      case None => None
      case Some(k) => Some(k + 1)
    }
  }

  /** Each key at most once, as in an object. */
  predicate DistinctLabels(t: seq<Tally>) {
    forall i, j :: 0 <= i < j < |t| ==> t[i].categoria != t[j].categoria
  }

  /** What the tally of the first `i` items satisfies. */
  predicate TallyOf(items: seq<Item>, i: nat, counts: seq<Tally>)
    requires i <= |items|
  {
    DistinctLabels(counts)
    && (forall k :: 0 <= k < |counts| ==>
      counts[k].count == CountIn(items[..i], counts[k].categoria) && counts[k].count > 0)
    && (forall p :: 0 <= p < i ==> FindLabel(counts, Label(items[p])).Some?)
    && Total(counts) == i
  }

  /** Counting item `i` adds one under its own label and nothing under any other. */
  lemma CountInStep(items: seq<Item>, i: nat, key: string)
    requires i < |items|
    ensures CountIn(items[..i + 1], key) == CountIn(items[..i], key) + (if Label(items[i]) == key then 1 else 0)
  {
    assert items[..i + 1][..i] == items[..i];
    assert items[..i + 1][i] == items[i];
  }

  /** Entries whose keys stay where they were still find the labels of the first
      `i` items. */
  lemma FindsKept(items: seq<Item>, i: nat, counts: seq<Tally>, after: seq<Tally>)
    requires i <= |items| && |counts| <= |after|
    requires forall p :: 0 <= p < i ==> FindLabel(counts, Label(items[p])).Some?
    requires forall k :: 0 <= k < |counts| ==> after[k].categoria == counts[k].categoria
    ensures forall p :: 0 <= p < i ==> FindLabel(after, Label(items[p])).Some?
  {
    forall p | 0 <= p < i ensures FindLabel(after, Label(items[p])).Some? {
      var key := Label(items[p]);
      var k := FindLabel(counts, key).value;
      FindLabelAt(after, key, k);
    }
  }

  /** A key held by some entry is found. */
  lemma FindLabelAt(t: seq<Tally>, key: string, k: nat)
    requires k < |t| && t[k].categoria == key
    ensures FindLabel(t, key).Some?
  {
  }

  /** Counting one more item under a key that already has an entry. */
  lemma TallyBump(items: seq<Item>, i: nat, counts: seq<Tally>, j: nat)
    requires i < |items| && TallyOf(items, i, counts)
    requires j < |counts| && counts[j].categoria == Label(items[i])
    ensures TallyOf(items, i + 1, counts[j := Tally(Label(items[i]), counts[j].count + 1)])
  {
    var key := Label(items[i]);
    var after := counts[j := Tally(key, counts[j].count + 1)];
    TotalUpdate(counts, j, after[j]);
    BumpedCounts(items, i, counts, j);
    FindsKept(items, i, counts, after);
    FindsNext(items, i, after, j);
  }

  /** The counts stay right when the entry of item `i`'s key goes up by one. */
  lemma BumpedCounts(items: seq<Item>, i: nat, counts: seq<Tally>, j: nat)
    requires i < |items| && TallyOf(items, i, counts)
    requires j < |counts| && counts[j].categoria == Label(items[i])
    ensures var after := counts[j := Tally(Label(items[i]), counts[j].count + 1)];
      forall k :: 0 <= k < |after| ==>
        after[k].count == CountIn(items[..i + 1], after[k].categoria) && after[k].count > 0
  {
    var after := counts[j := Tally(Label(items[i]), counts[j].count + 1)];
    forall k | 0 <= k < |after|
      ensures after[k].count == CountIn(items[..i + 1], after[k].categoria) && after[k].count > 0
    {
      CountInStep(items, i, counts[k].categoria);
    }
  }

  /** An entry for the label of item `i` extends the finds to the first `i + 1` items. */
  lemma FindsNext(items: seq<Item>, i: nat, after: seq<Tally>, j: nat)
    requires i < |items| && j < |after| && after[j].categoria == Label(items[i])
    requires forall p :: 0 <= p < i ==> FindLabel(after, Label(items[p])).Some?
    ensures forall p :: 0 <= p < i + 1 ==> FindLabel(after, Label(items[p])).Some?
  {
  }

  /** Counting one more item under a key that has no entry yet. */
  lemma TallyAppend(items: seq<Item>, i: nat, counts: seq<Tally>)
    requires i < |items| && TallyOf(items, i, counts)
    requires FindLabel(counts, Label(items[i])).None?
    ensures TallyOf(items, i + 1, counts + [Tally(Label(items[i]), 1)])
  {
    var key := Label(items[i]);
    var after := counts + [Tally(key, 1)];
    DistinctAppend(counts, key);
    TotalAppend(counts, Tally(key, 1));
    AppendedCounts(items, i, counts);
    FindsKept(items, i, counts, after);
    FindsNext(items, i, after, |counts|);
  }

  /** A new key keeps the keys distinct. */
  lemma DistinctAppend(counts: seq<Tally>, key: string)
    requires DistinctLabels(counts) && FindLabel(counts, key).None?
    ensures DistinctLabels(counts + [Tally(key, 1)])
  {
  }

  /** One more entry adds its count to the total. */
  lemma TotalAppend(counts: seq<Tally>, x: Tally)
    ensures Total(counts + [x]) == Total(counts) + x.count
  {
    assert (counts + [x])[..|counts|] == counts;
  }

  /** The counts stay right when a new key is appended with count 1. */
  lemma AppendedCounts(items: seq<Item>, i: nat, counts: seq<Tally>)
    requires i < |items| && TallyOf(items, i, counts)
    requires FindLabel(counts, Label(items[i])).None?
    ensures var after := counts + [Tally(Label(items[i]), 1)];
      forall k :: 0 <= k < |after| ==>
        after[k].count == CountIn(items[..i + 1], after[k].categoria) && after[k].count > 0
  {
    var key := Label(items[i]);
    var after := counts + [Tally(key, 1)];
    NewKeyUncounted(items, i, counts);
    CountInStep(items, i, key);
    forall k | 0 <= k < |counts|
      ensures after[k].count == CountIn(items[..i + 1], after[k].categoria) && after[k].count > 0
    {
      assert after[k] == counts[k];
      CountInStep(items, i, counts[k].categoria);
    }
  }

  /** A key without an entry has not been counted yet. */
  lemma NewKeyUncounted(items: seq<Item>, i: nat, counts: seq<Tally>)
    requires i < |items| && TallyOf(items, i, counts)
    requires FindLabel(counts, Label(items[i])).None?
    ensures CountIn(items[..i], Label(items[i])) == 0
  {
    var key := Label(items[i]);
    forall p | 0 <= p < i ensures Label(items[..i][p]) != key {
      assert items[..i][p] == items[p];
      var k := FindLabel(counts, Label(items[p])).value;
      assert counts[k].categoria != key;
    }
    CountInAbsent(items[..i], key);
  }

  /** The tally loop: every item is counted once, under its label; the entries have
      distinct keys, positive counts that are exactly the number of items with that
      label, and counts that add up to the number of items. */
  method TallyCategories(items: seq<Item>) returns (counts: seq<Tally>)
    ensures DistinctLabels(counts)
    ensures forall k :: 0 <= k < |counts| ==>
      counts[k].count == CountIn(items, counts[k].categoria) && counts[k].count > 0
    ensures forall p :: 0 <= p < |items| ==> FindLabel(counts, Label(items[p])).Some?
    ensures Total(counts) == |items|
  {
    counts := [];
    for i := 0 to |items|
      invariant TallyOf(items, i, counts)
    {
      var key := Label(items[i]);
      match FindLabel(counts, key) {
        case Some(j) =>
          TallyBump(items, i, counts, j);
          counts := counts[j := Tally(key, counts[j].count + 1)];
        case None =>
          TallyAppend(items, i, counts);
          counts := counts + [Tally(key, 1)];
      }
    }
    TallyOfAll(items, counts);
  }

  /** The tally of all the items. */
  lemma TallyOfAll(items: seq<Item>, counts: seq<Tally>)
    requires TallyOf(items, |items|, counts)
    ensures forall k :: 0 <= k < |counts| ==>
      counts[k].count == CountIn(items, counts[k].categoria) && counts[k].count > 0
  {
    assert items[..|items|] == items;
  }

  /** No entry has a smaller count than a later one. */
  predicate CountDescending(t: seq<Tally>) {
    forall i, j :: 0 <= i < j < |t| ==> t[i].count >= t[j].count
  }

  /** Places `x` before the first entry whose count is not larger. */
  function InsertByCount(x: Tally, sorted: seq<Tally>): (r: seq<Tally>)
    ensures multiset(r) == multiset(sorted) + multiset{x}
    ensures |r| == |sorted| + 1
    ensures r[0] == x || (sorted != [] && r[0] == sorted[0])
  {
    if sorted == [] || x.count >= sorted[0].count then [x] + sorted
    else
      assert sorted == [sorted[0]] + sorted[1..];
      [sorted[0]] + InsertByCount(x, sorted[1..])
  }

  lemma {:induction false} InsertKeepsDescending(x: Tally, sorted: seq<Tally>)
    requires CountDescending(sorted)
    ensures CountDescending(InsertByCount(x, sorted))
  {
    var r := InsertByCount(x, sorted);
    if sorted != [] && x.count < sorted[0].count {
      var tail := sorted[1..];
      InsertKeepsDescending(x, tail);
      var rest := InsertByCount(x, tail);
      assert r == [sorted[0]] + rest;
      assert sorted[0].count >= rest[0].count by {
        if rest[0] != x {
          assert rest[0] == sorted[1];
        }
      }
      forall a, b | 0 <= a < b < |r| ensures r[a].count >= r[b].count {
        assert r[b] == rest[b - 1];
        if a == 0 {
          assert rest[0].count >= rest[b - 1].count;
        } else {
          assert r[a] == rest[a - 1];
        }
      }
    }
  }

  /** `Object.entries(categoryCounts).sort(([,a], [,b]) => b - a)`: the entries,
      rearranged into descending count order. */
  function SortByCount(t: seq<Tally>): (r: seq<Tally>)
    ensures multiset(r) == multiset(t)
    ensures CountDescending(r)
  {
    if t == [] then []
    else
      var rest := SortByCount(t[1..]);
      InsertKeepsDescending(t[0], rest);
      assert t == [t[0]] + t[1..];
      InsertByCount(t[0], rest)
  }
}
