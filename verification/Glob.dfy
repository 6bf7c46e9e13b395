/** Words and wildcard matching, as `policy_evaluator.go` uses them through the Go library.

    `Fields` cuts a text at runs of white space, `Join` puts words back together with single
    spaces, and `Match` is the path matcher restricted to the two wildcards the policy API
    documents: '*' and '?', neither of which may stand for the separator '/'.
    The main result, `WindowMatchIsWordMatch`, says when a pattern matches a joined window. */
module Glob {

  /** Unicode white space, the set at which the library cuts words. */
  predicate IsSpace(c: char) {
    || c in {'\t', '\n', '\U{0B}', '\U{0C}', '\r', ' ', '\U{85}', '\U{A0}', '\U{1680}'}
    || '\U{2000}' <= c <= '\U{200A}'
    || c in {'\U{2028}', '\U{2029}', '\U{202F}', '\U{205F}', '\U{3000}'}
  }

  predicate IsWild(c: char) { c == '*' || c == '?' }

  /** Length of the run of non-space characters at the head of `s`. */
  function WordLength(s: string): (n: nat)
    ensures n <= |s|
    ensures forall k :: 0 <= k < n ==> !IsSpace(s[k])
    ensures n < |s| ==> IsSpace(s[n])
  {
    if s == "" || IsSpace(s[0]) then 0 else 1 + WordLength(s[1..])
  }

  predicate IsWord(w: string) {
    w != "" && forall k :: 0 <= k < |w| ==> !IsSpace(w[k])
  }

  function Fields(s: string): (words: seq<string>)
    ensures forall w :: w in words ==> IsWord(w)
    decreases |s|
  {
    if s == "" then []
    else if IsSpace(s[0]) then Fields(s[1..])
    else var n := WordLength(s); [s[..n]] + Fields(s[n..])
  }

  function Join(words: seq<string>): string {
    if words == [] then ""
    else if |words| == 1 then words[0]
    else words[0] + " " + Join(words[1..])
  }

  predicate Match(p: string, s: string)
    decreases |p| + |s|
  {
    if p == "" then s == ""
    else if p[0] == '*' then
      Match(p[1..], s) || (s != "" && s[0] != '/' && Match(p, s[1..]))
    else if p[0] == '?' then
      s != "" && s[0] != '/' && Match(p[1..], s[1..])
    else
      s != "" && s[0] == p[0] && Match(p[1..], s[1..])
  }

  // ---- What a match is, without the matcher ----

  function Concat(parts: seq<string>): string {
    if parts == [] then "" else parts[0] + Concat(parts[1..])
  }

  /** One part of the text for each character of the pattern: '*' stands for any text without '/',
      '?' for one character that is not '/', and any other character for itself. */
  predicate Spells(parts: seq<string>, p: string, s: string) {
    && |parts| == |p| && Concat(parts) == s
    && forall k :: 0 <= k < |p| ==>
         if p[k] == '*' then '/' !in parts[k]
         else if p[k] == '?' then |parts[k]| == 1 && parts[k] != "/"
         else parts[k] == [p[k]]
  }

  ghost predicate Spelled(p: string, s: string) { exists parts :: Spells(parts, p, s) }

  /** The matcher accepts exactly the texts that can be cut into such parts. */
  lemma {:induction false} MatchIsSpelling(p: string, s: string)
    ensures Match(p, s) <==> Spelled(p, s)
  {
    if Match(p, s) {
      var parts := MatchHasParts(p, s);
    }
    if parts :| Spells(parts, p, s) {
      PartsMatch(parts, p, s);
    }
  }

  lemma {:induction false} MatchHasParts(p: string, s: string) returns (parts: seq<string>)
    requires Match(p, s)
    ensures Spells(parts, p, s)
    decreases |p| + |s|
  {
    if p == "" {
      parts := [];
    } else if p[0] == '*' && Match(p[1..], s) {
      var rest := MatchHasParts(p[1..], s);
      parts := [""] + rest;
    } else if p[0] == '*' {
      var rest := MatchHasParts(p, s[1..]);
      parts := [[s[0]] + rest[0]] + rest[1..];
      assert Concat(parts) == [s[0]] + (rest[0] + Concat(rest[1..]));
    } else {
      var rest := MatchHasParts(p[1..], s[1..]);
      parts := [[s[0]]] + rest;
    }
  }

  lemma {:induction false} PartsMatch(parts: seq<string>, p: string, s: string)
    requires Spells(parts, p, s)
    ensures Match(p, s)
    decreases |p| + |s|
  {
    if p != "" {
      var first, rest := parts[0], parts[1..];
      if first == "" {
        assert s == Concat(rest);
        PartsMatch(rest, p[1..], s);
      } else if p[0] == '*' {
        assert s[0] == first[0] && s[1..] == first[1..] + Concat(rest);
        PartsMatch([first[1..]] + rest, p, s[1..]);
      } else {
        assert s[1..] == Concat(rest);
        PartsMatch(rest, p[1..], s[1..]);
      }
    }
  }

  /** The pattern words match the text words one by one. */
  ghost predicate WordsMatch(ps: seq<string>, ws: seq<string>) {
    |ps| == |ws| && forall j :: 0 <= j < |ps| ==> Spelled(ps[j], ws[j])
  }

  /** Number of plain spaces. */
  function Blanks(s: string): nat {
    if s == "" then 0 else (if s[0] == ' ' then 1 else 0) + Blanks(s[1..])
  }

  // ---- Counting: a match spends every literal blank of the pattern on a blank of the text ----

  lemma {:induction false} MatchSpendsBlanks(p: string, s: string)
    requires Match(p, s)
    ensures Blanks(p) <= Blanks(s)
    decreases |p| + |s|
  {
    if p != "" {
      if p[0] == '*' {
        if Match(p[1..], s) { MatchSpendsBlanks(p[1..], s); } else { MatchSpendsBlanks(p, s[1..]); }
      } else {
        MatchSpendsBlanks(p[1..], s[1..]);
      }
    }
  }

  lemma {:induction false} BlanksConcat(a: string, b: string)
    ensures Blanks(a + b) == Blanks(a) + Blanks(b)
  {
    if a == "" {
      assert a + b == b;
    } else {
      assert (a + b)[1..] == a[1..] + b;
      BlanksConcat(a[1..], b);
    }
  }

  lemma {:induction false} NoBlanksInWord(w: string)
    requires forall k :: 0 <= k < |w| ==> w[k] != ' '
    ensures Blanks(w) == 0
  {
    if w != "" { NoBlanksInWord(w[1..]); }
  }

  lemma {:induction false} BlanksOfJoin(ws: seq<string>)
    requires forall w :: w in ws ==> IsWord(w)
    ensures Blanks(Join(ws)) == if ws == [] then 0 else |ws| - 1
  {
    if |ws| == 1 {
      assert IsWord(ws[0]);
      NoBlanksInWord(ws[0]);
    } else if |ws| > 1 {
      assert IsWord(ws[0]);
      NoBlanksInWord(ws[0]);
      BlanksConcat(ws[0], " " + Join(ws[1..]));
      assert ws[0] + " " + Join(ws[1..]) == ws[0] + (" " + Join(ws[1..]));
      assert (" " + Join(ws[1..]))[1..] == Join(ws[1..]);
      BlanksOfJoin(ws[1..]);
    }
  }

  /** With as many literal blanks in the pattern as blanks in the text, the first blank of the one
      meets the first blank of the other: no wildcard can have crossed it. */
  lemma {:induction false} MatchSplitsAtBlank(p: string, q: string, u: string, v: string)
    requires forall k :: 0 <= k < |p| ==> p[k] != ' '
    requires forall k :: 0 <= k < |u| ==> u[k] != ' '
    requires Blanks(q) >= Blanks(v)
    requires Match(p + " " + q, u + " " + v)
    ensures Match(p, u) && Match(q, v)
    decreases |p| + |u|
  {
    var pat, txt := p + " " + q, u + " " + v;
    NoBlanksInWord(p); NoBlanksInWord(u);
    assert Blanks(pat) == 1 + Blanks(q) by { BlanksConcat(p + " ", q); BlanksConcat(p, " "); }
    assert Blanks(txt) == 1 + Blanks(v) by { BlanksConcat(u + " ", v); BlanksConcat(u, " "); }
    if p == "" {
      assert pat[0] == ' ' && pat[1..] == q;
      if u == "" { assert txt[1..] == v; } else { assert false; }
    } else {
      assert pat[0] == p[0] && pat[1..] == p[1..] + " " + q;
      BlanksConcat(p[1..] + " ", q); BlanksConcat(p[1..], " ");
      if p[0] == '*' && Match(pat[1..], txt) {
        MatchSplitsAtBlank(p[1..], q, u, v);
      } else if u == "" {
        assert txt[1..] == v;
        MatchSpendsBlanks(if p[0] == '*' then pat else pat[1..], v);
        assert false;
      } else {
        assert txt[0] == u[0] && txt[1..] == u[1..] + " " + v;
        MatchSplitsAtBlank(if p[0] == '*' then p else p[1..], q, u[1..], v);
      }
    }
  }

  lemma {:induction false} MatchConcat(p: string, q: string, u: string, v: string)
    requires Match(p, u) && Match(q, v)
    ensures Match(p + q, u + v)
    decreases |p| + |u|
  {
    if p == "" {
      assert p + q == q && u + v == v;
    } else {
      assert (p + q)[0] == p[0] && (p + q)[1..] == p[1..] + q;
      if p[0] == '*' && Match(p[1..], u) {
        MatchConcat(p[1..], q, u, v);
      } else {
        assert (u + v)[0] == u[0] && (u + v)[1..] == u[1..] + v;
        MatchConcat(if p[0] == '*' then p else p[1..], q, u[1..], v);
      }
    }
  }

  /** For equally many words, matching the joined texts is matching word by word. */
  lemma {:induction false} JoinedMatchIsWordMatch(ps: seq<string>, ws: seq<string>)
    requires |ps| == |ws|
    requires forall w :: w in ps ==> IsWord(w)
    requires forall w :: w in ws ==> IsWord(w)
    ensures Match(Join(ps), Join(ws)) <==> WordsMatch(ps, ws)
  {
    if ps != [] { MatchIsSpelling(ps[0], ws[0]); }
    if |ps| > 1 {
      JoinedMatchIsWordMatch(ps[1..], ws[1..]);
      BlanksOfJoin(ps[1..]); BlanksOfJoin(ws[1..]);
      assert IsWord(ps[0]) && IsWord(ws[0]);
      if Match(Join(ps), Join(ws)) {
        MatchSplitsAtBlank(ps[0], Join(ps[1..]), ws[0], Join(ws[1..]));
        forall j | 0 <= j < |ps| ensures Spelled(ps[j], ws[j]) {
          if j > 0 { assert Spelled(ps[1..][j - 1], ws[1..][j - 1]); }
        }
      }
      if WordsMatch(ps, ws) {
        forall j | 0 <= j < |ps| - 1 ensures Spelled(ps[1..][j], ws[1..][j]) {
          assert Spelled(ps[j + 1], ws[j + 1]);
        }
        assert Match(" ", " ");
        MatchConcat(ps[0], " ", ws[0], " ");
        MatchConcat(ps[0] + " ", Join(ps[1..]), ws[0] + " ", Join(ws[1..]));
      }
    }
  }

  // ---- A pattern that is not its own words joined by single spaces matches no window ----

  lemma {:induction false} LiteralNeeded(p: string, s: string, c: char)
    requires Match(p, s) && c in p && !IsWild(c)
    ensures c in s
    decreases |p| + |s|
  {
    if p[0] == '*' {
      if Match(p[1..], s) { LiteralNeeded(p[1..], s, c); } else { LiteralNeeded(p, s[1..], c); }
    } else if p[0] != c {
      LiteralNeeded(p[1..], s[1..], c);
    }
  }

  lemma {:induction false} JoinHasOnlyBlanks(ws: seq<string>, c: char)
    requires forall w :: w in ws ==> IsWord(w)
    requires c in Join(ws) && IsSpace(c)
    ensures c == ' '
  {
    assert ws != [] && IsWord(ws[0]);
    if |ws| > 1 && c in Join(ws[1..]) {
      JoinHasOnlyBlanks(ws[1..], c);
    }
  }

  /** Only plain spaces as white space, fewer of them than words: then the text is its words,
      single-spaced. */
  lemma {:induction false} FewBlanksMeansJoined(p: string)
    requires forall c :: c in p && IsSpace(c) ==> c == ' '
    requires Blanks(p) < |Fields(p)|
    ensures p == Join(Fields(p))
    decreases |p|
  {
    if p != "" && IsSpace(p[0]) {
      BlanksAtLeastWords(p[1..]);
      assert false;
    } else if p != "" {
      var n := WordLength(p);
      NoBlanksInWord(p[..n]);
      BlanksConcat(p[..n], p[n..]);
      assert p == p[..n] + p[n..];
      if n < |p| {
        assert p[n] in p;
        var rest := p[n + 1..];
        assert p[n..] == " " + rest;
        AfterBlank(rest);
        FewBlanksMeansJoined(rest);
      }
    }
  }

  lemma {:induction false} AfterBlank(rest: string)
    ensures Fields(" " + rest) == Fields(rest) && Blanks(" " + rest) == 1 + Blanks(rest)
  {
    assert (" " + rest)[1..] == rest;
  }

  lemma {:induction false} BlanksAtLeastWords(p: string)
    requires forall c :: c in p && IsSpace(c) ==> c == ' '
    ensures Blanks(p) + 1 >= |Fields(p)|
    decreases |p|
  {
    if p != "" && IsSpace(p[0]) {
      BlanksAtLeastWords(p[1..]);
    } else if p != "" {
      var n := WordLength(p);
      BlanksConcat(p[..n], p[n..]);
      assert p == p[..n] + p[n..];
      if n < |p| {
        var rest := p[n + 1..];
        assert p[n] in p && p[n..][1..] == rest;
        BlanksAtLeastWords(rest);
      }
    }
  }

  /** The heart of the window test: a joined window of as many words as the pattern has is matched
      exactly when the pattern is its words single-spaced and those words match one by one. */
  lemma {:induction false} WindowMatchIsWordMatch(pattern: string, window: seq<string>)
    requires |window| == |Fields(pattern)| > 0
    requires forall w :: w in window ==> IsWord(w)
    ensures Match(pattern, Join(window))
       <==> pattern == Join(Fields(pattern)) && WordsMatch(Fields(pattern), window)
  {
    JoinedMatchIsWordMatch(Fields(pattern), window);
    if Match(pattern, Join(window)) {
      MatchSpendsBlanks(pattern, Join(window));
      BlanksOfJoin(window);
      forall c | c in pattern && IsSpace(c) ensures c == ' ' {
        LiteralNeeded(pattern, Join(window), c);
        JoinHasOnlyBlanks(window, c);
      }
      FewBlanksMeansJoined(pattern);
    }
  }

  // ---- Words of a text put together from pieces ----

  lemma {:induction false} FieldsAcrossSpace(a: string, c: char, b: string)
    requires IsSpace(c)
    ensures Fields(a + [c] + b) == Fields(a) + Fields(b)
    decreases |a|
  {
    var s := a + [c] + b;
    if a == "" {
      assert s[1..] == b;
    } else if IsSpace(a[0]) {
      assert s[1..] == a[1..] + [c] + b;
      FieldsAcrossSpace(a[1..], c, b);
    } else {
      var n := WordLength(a);
      WordLengthStops(a, [c] + b);
      assert s == a + ([c] + b);
      assert s[..n] == a[..n] && s[n..] == a[n..] + [c] + b;
      FieldsAcrossSpace(a[n..], c, b);
      assert Fields(a) == [a[..n]] + Fields(a[n..]);
    }
  }

  predicate AllSpace(s: string) { forall c :: c in s ==> IsSpace(c) }

  lemma {:induction false} LeadingSpaceIsNothing(gap: string, s: string)
    requires AllSpace(gap)
    ensures Fields(gap + s) == Fields(s)
  {
    if gap == "" {
      assert gap + s == s;
    } else {
      assert gap[0] in gap && (gap + s)[1..] == gap[1..] + s;
      forall c | c in gap[1..] ensures IsSpace(c) {
        assert c in gap;
      }
      LeadingSpaceIsNothing(gap[1..], s);
    }
  }

  /** White space between two texts, however much, parts their words; at the ends of a text it may
      be missing. */
  lemma {:induction false} FieldsAcrossGap(a: string, gap: string, b: string)
    requires AllSpace(gap) && (gap != "" || a == "" || b == "")
    ensures Fields(a + gap + b) == Fields(a) + Fields(b)
  {
    if a == "" {
      LeadingSpaceIsNothing(gap, b);
      assert a + gap + b == gap + b;
    } else if gap == "" {
      assert b == "" && a + gap + b == a;
    } else {
      assert gap[0] in gap && gap == [gap[0]] + gap[1..];
      forall c | c in gap[1..] ensures IsSpace(c) {
        assert c in gap;
      }
      FieldsAcrossSpace(a, gap[0], gap[1..] + b);
      LeadingSpaceIsNothing(gap[1..], b);
      assert a + [gap[0]] + (gap[1..] + b) == a + gap + b;
    }
  }

  lemma {:induction false} WordComesFirst(w: string, rest: string)
    requires IsWord(w) && (rest == "" || IsSpace(rest[0]))
    ensures Fields(w + rest) == [w] + Fields(rest)
  {
    WordLengthOfWord(w);
    if rest == "" {
      assert w + rest == w && w[..|w|] == w;
    } else {
      WordLengthStops(w, rest);
      assert (w + rest)[..|w|] == w && (w + rest)[|w|..] == rest;
    }
  }

  lemma {:induction false} WordLengthOfWord(w: string)
    requires forall k :: 0 <= k < |w| ==> !IsSpace(w[k])
    ensures WordLength(w) == |w|
  {
    if w != "" { WordLengthOfWord(w[1..]); }
  }

  /** A gap before each word and one after the last. */
  function LaidOut(gaps: seq<string>, words: seq<string>): string
    requires |gaps| == |words| + 1
  {
    if words == [] then gaps[0] else gaps[0] + words[0] + LaidOut(gaps[1..], words[1..])
  }

  /** The words hold no white space, the gaps nothing else, and two words are never side by side. */
  predicate IsLayout(gaps: seq<string>, words: seq<string>) {
    && |gaps| == |words| + 1
    && (forall k :: 0 <= k < |gaps| ==> AllSpace(gaps[k]))
    && (forall k :: 0 <= k < |words| ==> IsWord(words[k]))
    && (forall k :: 0 < k < |words| ==> gaps[k] != "")
  }

  /** The fields of a text are its words: those it is laid out from, and there is only one way. */
  lemma {:induction false} FieldsAreTheWords(s: string, words: seq<string>)
    ensures words == Fields(s) <==> exists gaps :: IsLayout(gaps, words) && s == LaidOut(gaps, words)
  {
    if words == Fields(s) {
      var gaps := LayoutOf(s);
    }
    if gaps :| IsLayout(gaps, words) && s == LaidOut(gaps, words) {
      FieldsOfLayout(gaps, words);
    }
  }

  lemma {:induction false} FieldsOfLayout(gaps: seq<string>, words: seq<string>)
    requires IsLayout(gaps, words)
    ensures Fields(LaidOut(gaps, words)) == words
    decreases |words|
  {
    if words == [] {
      LeadingSpaceIsNothing(gaps[0], "");
      assert gaps[0] + "" == gaps[0];
    } else {
      LayoutStartsWithSpace(gaps[1..], words[1..]);
      FieldsOfLayout(gaps[1..], words[1..]);
      WordAfterGap(gaps[0], words[0], LaidOut(gaps[1..], words[1..]));
    }
  }

  lemma {:induction false} LayoutStartsWithSpace(gaps: seq<string>, words: seq<string>)
    requires IsLayout(gaps, words) && (words != [] ==> gaps[0] != "")
    ensures LaidOut(gaps, words) != "" ==> IsSpace(LaidOut(gaps, words)[0])
  {
    if gaps[0] != "" {
      assert LaidOut(gaps, words)[0] == gaps[0][0] && gaps[0][0] in gaps[0];
    }
  }

  lemma {:induction false} WordAfterGap(gap: string, w: string, rest: string)
    requires AllSpace(gap) && IsWord(w) && (rest == "" || IsSpace(rest[0]))
    ensures Fields(gap + w + rest) == [w] + Fields(rest)
  {
    WordComesFirst(w, rest);
    LeadingSpaceIsNothing(gap, w + rest);
    assert gap + w + rest == gap + (w + rest);
  }

  lemma {:induction false} LayoutOf(s: string) returns (gaps: seq<string>)
    ensures IsLayout(gaps, Fields(s)) && s == LaidOut(gaps, Fields(s))
    ensures s != "" && IsSpace(s[0]) ==> gaps[0] != ""
    decreases |s|
  {
    if s == "" {
      gaps := [""];
    } else if IsSpace(s[0]) {
      var rest := LayoutOf(s[1..]);
      gaps := WidenedLayout(s[0], rest, Fields(s[1..]));
      assert s == [s[0]] + s[1..];
    } else {
      var n := WordLength(s);
      var rest := LayoutOf(s[n..]);
      gaps := [""] + rest;
      LayoutWithWord(s[..n], rest, Fields(s[n..]));
      assert s == s[..n] + s[n..];
    }
  }

  lemma {:induction false} WidenedLayout(c: char, rest: seq<string>, words: seq<string>) returns (gaps: seq<string>)
    requires IsSpace(c) && IsLayout(rest, words)
    ensures IsLayout(gaps, words) && LaidOut(gaps, words) == [c] + LaidOut(rest, words) && gaps[0] != ""
  {
    gaps := [[c] + rest[0]] + rest[1..];
    assert gaps[1..] == rest[1..];
    forall d | d in gaps[0] ensures IsSpace(d) {
      assert d == c || d in rest[0];
    }
  }

  lemma {:induction false} LayoutWithWord(w: string, rest: seq<string>, words: seq<string>)
    requires IsWord(w) && IsLayout(rest, words) && (words != [] ==> rest[0] != "")
    ensures IsLayout([""] + rest, [w] + words) && LaidOut([""] + rest, [w] + words) == w + LaidOut(rest, words)
  {
    assert ([""] + rest)[1..] == rest && ([w] + words)[1..] == words;
  }

  lemma {:induction false} WordLengthStops(a: string, b: string)
    requires b != "" && IsSpace(b[0])
    ensures WordLength(a + b) == WordLength(a)
  {
    if a != "" && !IsSpace(a[0]) {
      assert (a + b)[1..] == a[1..] + b;
      WordLengthStops(a[1..], b);
    }
  }
}
