/**
 * Text fitting for tile labels: one-line truncation with an ellipsis (binary search for the longest
 * prefix that fits) and greedy word wrapping into at most a few lines. Text width is measured by
 * a function `measure` of the string, supplied by the caller for the current font size.
 */
module Text {
  import opened Common

  /** The ellipsis tiles use. */
  const Ellipsis: string := ".."

  /** The characters JavaScript's `trim()` removes and `\s` matches. */
  predicate IsSpace(c: char) {
    || c == ' ' || c == '\t' || c == '\n' || c == '\r' || c == '\U{000B}' || c == '\U{000C}'
    || c == '\U{00A0}' || c == '\U{1680}' || ('\U{2000}' <= c <= '\U{200A}')
    || c == '\U{2028}' || c == '\U{2029}' || c == '\U{202F}' || c == '\U{205F}'
    || c == '\U{3000}' || c == '\U{FEFF}'
  }

  /** `s.trimEnd()`: `s` without its trailing white space. */
  function TrimEnd(s: string): string
    decreases |s|
  {
    if s != [] && IsSpace(s[|s| - 1]) then TrimEnd(s[..|s| - 1]) else s
  }

  /** `s.trimStart()`: `s` without its leading white space. */
  function TrimStart(s: string): string
    decreases |s|
  {
    if s != [] && IsSpace(s[0]) then TrimStart(s[1..]) else s
  }

  /** `trimEnd` keeps a prefix that does not end in white space and drops only white space. */
  lemma {:induction false} TrimEndShape(s: string)
    ensures var r := TrimEnd(s);
      && |r| <= |s| && r == s[..|r|]
      && (r == [] || !IsSpace(r[|r| - 1]))
      && (forall i :: |r| <= i < |s| ==> IsSpace(s[i]))
    decreases |s|
  {
    if s != [] && IsSpace(s[|s| - 1]) {
      TrimEndShape(s[..|s| - 1]);
    }
  }

  /** `trimStart` keeps a suffix that does not start with white space and drops only white space. */
  lemma {:induction false} TrimStartShape(s: string)
    ensures var r := TrimStart(s);
      && |r| <= |s| && r == s[|s| - |r|..]
      && (r == [] || !IsSpace(r[0]))
      && (forall i :: 0 <= i < |s| - |r| ==> IsSpace(s[i]))
    decreases |s|
  {
    if s != [] && IsSpace(s[0]) {
      TrimStartShape(s[1..]);
    }
  }

  /** `s.trim()`. */
  function Trim(s: string): string {
    TrimEnd(TrimStart(s))
  }

  /** A string whose last character is not white space trims to something non-empty. */
  lemma TrimNonEmpty(s: string)
    requires s != [] && !IsSpace(s[|s| - 1])
    ensures Trim(s) != ""
  {
    var r := TrimStart(s);
    TrimStartShape(s);
    TrimEndShape(r);
    assert r[|r| - 1] == s[|s| - 1];
  }

  /** Trimming twice is trimming once. */
  lemma TrimTwice(s: string)
    ensures Trim(Trim(s)) == Trim(s)
  {
    var t := TrimStart(s);
    var u := TrimEnd(t);
    TrimStartShape(s);
    TrimEndShape(t);
    if u != [] {
      assert u[0] == t[0];
    }
    assert TrimStart(u) == u;
  }

  /** A word: non-empty and free of white space. */
  predicate IsWord(w: string) {
    w != [] && forall i :: 0 <= i < |w| ==> !IsSpace(w[i])
  }

  /** A non-empty string that trimming leaves unchanged. */
  predicate Solid(w: string) {
    w != [] && Trim(w) == w
  }

  /** Every word is solid: stated recursively so that it is unfolded only on demand. */
  predicate AllSolid(ws: seq<string>)
    decreases |ws|
  {
    ws == [] || (Solid(ws[0]) && AllSolid(ws[1..]))
  }

  lemma {:induction false} AllSolidAt(ws: seq<string>, j: nat)
    requires AllSolid(ws) && j < |ws|
    ensures Solid(ws[j])
    decreases j
  {
    if j > 0 {
      AllSolidAt(ws[1..], j - 1);
    }
  }

  lemma {:induction false} WordsAreSolid(ws: seq<string>)
    requires forall j :: 0 <= j < |ws| ==> IsWord(ws[j])
    ensures AllSolid(ws)
    decreases |ws|
  {
    if ws != [] {
      WordTrims(ws[0]);
      WordsAreSolid(ws[1..]);
    }
  }

  lemma WordTrims(w: string)
    requires IsWord(w)
    ensures Solid(w)
  {
    assert TrimStart(w) == w;
  }

  /** The longest prefix of `s` without white space. */
  function Run(s: string): (w: string)
    ensures |w| <= |s| && w == s[..|w|]
    ensures forall i :: 0 <= i < |w| ==> !IsSpace(w[i])
    ensures |w| < |s| ==> IsSpace(s[|w|])
    decreases |s|
  {
    if s == [] || IsSpace(s[0]) then [] else [s[0]] + Run(s[1..])
  }

  /**
   * `s.split(/\s+/).filter(Boolean)`: the maximal runs of non-space characters, in order; there are
   * none exactly when `s` is all white space (`WordsNone`; `WordsSplit` and `WordsLetters` say
   * which runs).
   */
  function Words(s: string): (ws: seq<string>)
    ensures forall i :: 0 <= i < |ws| ==> IsWord(ws[i])
    decreases |s|
  {
    if s == [] then []
    else if IsSpace(s[0]) then Words(s[1..])
    else
      var w := Run(s);
      [w] + Words(s[|w|..])
  }

  /** The run at the start of a text that has white space after it does not see what follows. */
  lemma {:induction false} RunPrefix(a: string, b: string)
    requires |Run(a)| < |a|
    ensures Run(a + b) == Run(a)
    decreases |a|
  {
    if !IsSpace(a[0]) {
      assert (a + b)[0] == a[0];
      assert (a + b)[1..] == a[1..] + b;
      RunPrefix(a[1..], b);
    }
  }

  /**
   * Splitting at white space: the words of two texts joined where one of them has white space are
   * the words of the first followed by the words of the second. With `Words(w) == [w]` for a single
   * word (`WordsOfJoin`) and no words in white space, this fixes the words of every text.
   */
  lemma {:induction false} WordsSplit(a: string, b: string)
    requires a == [] || b == [] || IsSpace(a[|a| - 1]) || IsSpace(b[0])
    ensures Words(a + b) == Words(a) + Words(b)
    decreases |a|, 1
  {
    if a == [] {
      assert a + b == b;
    } else if IsSpace(a[0]) {
      assert (a + b)[0] == a[0];
      assert (a + b)[1..] == a[1..] + b;
      WordsSplit(a[1..], b);
    } else {
      WordsSplitAtRun(a, b);
    }
  }

  /** `WordsSplit` when the first text starts with a word. */
  lemma {:induction false} WordsSplitAtRun(a: string, b: string)
    requires a != [] && !IsSpace(a[0])
    requires b == [] || IsSpace(a[|a| - 1]) || IsSpace(b[0])
    ensures Words(a + b) == Words(a) + Words(b)
    decreases |a|, 0
  {
    var w := Run(a);
    assert (a + b)[0] == a[0];
    if |w| < |a| {
      var rest := a[|w|..];
      assert rest[|rest| - 1] == a[|a| - 1];
      WordsSplit(rest, b);
      WordsSplitAfterRun(a, b);
    } else {
      assert w == a;
      RunOfWord(a, b);
      WordsOfRun(a);
      WordsOfRun(a + b);
      assert (a + b)[|a|..] == b;
      assert a[|a|..] == [];
    }
  }

  /** A word that ends inside the first text: the split reduces to the text after that word. */
  lemma WordsSplitAfterRun(a: string, b: string)
    requires a != [] && !IsSpace(a[0]) && |Run(a)| < |a|
    requires Words(a[|Run(a)|..] + b) == Words(a[|Run(a)|..]) + Words(b)
    ensures Words(a + b) == Words(a) + Words(b)
  {
    var w := Run(a);
    assert (a + b)[0] == a[0];
    RunPrefix(a, b);
    WordsOfRun(a);
    WordsOfRun(a + b);
    assert (a + b)[|w|..] == a[|w|..] + b;
  }

  /** A text has no words exactly when it is all white space. */
  lemma {:induction false} WordsNone(s: string)
    ensures Words(s) == [] <==> forall i :: 0 <= i < |s| ==> IsSpace(s[i])
    decreases |s|
  {
    if s != [] && IsSpace(s[0]) {
      WordsNone(s[1..]);
      assert forall i :: 1 <= i < |s| ==> s[i] == s[1..][i - 1];
    }
  }

  /** The words of a text that starts with a word: that run, then the words of the rest. */
  lemma WordsOfRun(s: string)
    requires s != [] && !IsSpace(s[0])
    ensures Words(s) == [Run(s)] + Words(s[|Run(s)|..])
  {
  }

  function Concat(ws: seq<string>): string
    decreases |ws|
  {
    if ws == [] then "" else ws[0] + Concat(ws[1..])
  }

  predicate NotSpace(c: char) {
    !IsSpace(c)
  }

  /** The words hold every non-space character of the text, in order, and nothing else. */
  lemma {:induction false} WordsLetters(s: string)
    ensures Concat(Words(s)) == Filter(s, NotSpace)
    decreases |s|
  {
    if s != [] {
      if IsSpace(s[0]) {
        WordsLetters(s[1..]);
      } else {
        var w := Run(s);
        WordsLetters(s[|w|..]);
        assert s == w + s[|w|..];
        FilterAppend(w, s[|w|..], NotSpace);
        FilterAll(w, NotSpace);
        assert Words(s) == [w] + Words(s[|w|..]);
      }
    }
  }

  /** `ws.join(" ")`. */
  function Join(ws: seq<string>): string
    decreases |ws|
  {
    if ws == [] then "" else if |ws| == 1 then ws[0] else ws[0] + " " + Join(ws[1..])
  }

  lemma {:induction false} JoinSnoc(ws: seq<string>, w: string)
    requires ws != []
    ensures Join(ws + [w]) == Join(ws) + " " + w
    decreases |ws|
  {
    if |ws| > 1 {
      assert (ws + [w])[1..] == ws[1..] + [w];
      JoinSnoc(ws[1..], w);
    }
  }

  lemma {:induction false} JoinLastExtend(ws: seq<string>, y: string, t: string)
    ensures Join(ws + [y + t]) == Join(ws + [y]) + t
    decreases |ws|
  {
    if ws != [] {
      assert (ws + [y + t])[1..] == ws[1..] + [y + t];
      assert (ws + [y])[1..] == ws[1..] + [y];
      JoinLastExtend(ws[1..], y, t);
    }
  }

  lemma RunOfWord(w: string, rest: string)
    requires IsWord(w)
    requires rest == [] || IsSpace(rest[0])
    ensures Run(w + rest) == w
    decreases |w|
  {
    if |w| > 1 {
      assert (w + rest)[1..] == w[1..] + rest;
      RunOfWord(w[1..], rest);
    } else {
      assert (w + rest)[1..] == rest;
    }
  }

  /** Splitting undoes joining: words joined with single spaces split back into the same words. */
  lemma {:induction false} WordsOfJoin(ws: seq<string>)
    requires forall i :: 0 <= i < |ws| ==> IsWord(ws[i])
    ensures Words(Join(ws)) == ws
    decreases |ws|
  {
    if ws != [] {
      var w := ws[0];
      if |ws| == 1 {
        RunOfWord(w, []);
        assert w + [] == w;
        assert w[|w|..] == [];
        assert Words(w) == [w] + Words([]);
      } else {
        var rest := Join(ws[1..]);
        var s := w + " " + rest;
        assert Join(ws) == w + (" " + rest);
        RunOfWord(w, " " + rest);
        assert s[|w|..] == " " + rest;
        assert (" " + rest)[1..] == rest;
        WordsOfJoin(ws[1..]);
      }
    }
  }

  // ---------------------------------------------------------------------------------------------
  // truncateOneLine

  /** The text shown and whether it was cut. */
  datatype Fitted = Fitted(text: string, ellipsized: bool)

  /** The trimmed first `k` characters followed by the ellipsis. */
  function Candidate(full: string, k: nat): string
    requires k <= |full|
  {
    TrimEnd(full[..k]) + Ellipsis
  }

  /** Whether the candidate of each prefix length fits the width (lengths beyond the text never do). */
  function FitsAt(full: string, maxWidth: real, measure: string -> real): nat -> bool {
    (k: nat) => k <= |full| && measure(Candidate(full, k)) <= maxWidth
  }

  /**
   * The binary search `while (lo < hi) { mid = ceil((lo + hi) / 2); ... }` over the prefix length:
   * the result lies between the bounds and, unless it is the lower bound, it passes the test.
   */
  function SearchLongest(fits: nat -> bool, lo: nat, hi: nat): (k: nat)
    requires lo <= hi
    ensures lo <= k <= hi
    decreases hi - lo
  {
    if lo >= hi then lo
    else
      var mid := (lo + hi + 1) / 2;
      if fits(mid) then SearchLongest(fits, mid, hi)
      else SearchLongest(fits, lo, mid - 1)
  }

  /** The search result is the lower bound or passes the test. */
  lemma {:induction false} SearchPasses(fits: nat -> bool, lo: nat, hi: nat)
    requires lo <= hi
    ensures var k := SearchLongest(fits, lo, hi); k == lo || fits(k)
    decreases hi - lo
  {
    if lo < hi {
      var mid := (lo + hi + 1) / 2;
      if fits(mid) {
        SearchPasses(fits, mid, hi);
      } else {
        SearchPasses(fits, lo, mid - 1);
      }
    }
  }

  /** What `truncateOneLine` leaves in the element and returns. */
  function Truncation(text: string, maxWidth: real, force: bool, measure: string -> real): Fitted {
    var full := Trim(text);
    if full == "" then Fitted(full, false)
    else if maxWidth <= 0.0 then Fitted(Ellipsis, true)
    else if measure(full) <= maxWidth && !force then Fitted(full, false)
    else Fitted(Candidate(full, SearchLongest(FitsAt(full, maxWidth, measure), 0, |full|)), true)
  }

  /**
   * `truncateOneLine` cuts exactly when there is text and either the width is not positive, the cut
   * is forced or the text is too wide; an uncut result is the trimmed text, and a cut one is the
   * trimmed text's candidate for some prefix length that fits or is the bare ellipsis.
   */
  lemma TruncationShape(text: string, maxWidth: real, force: bool, measure: string -> real)
    ensures var r := Truncation(text, maxWidth, force, measure);
      && (r.ellipsized <==> Trim(text) != "" && (maxWidth <= 0.0 || force || measure(Trim(text)) > maxWidth))
      && (!r.ellipsized ==> r.text == Trim(text))
      && (r.ellipsized ==> exists k :: 0 <= k <= |Trim(text)| && r.text == Candidate(Trim(text), k))
      && (r.ellipsized ==> r.text == Ellipsis || measure(r.text) <= maxWidth)
  {
    var full := Trim(text);
    if full != "" {
      if maxWidth <= 0.0 {
        assert Candidate(full, 0) == Ellipsis;
      } else if !(measure(full) <= maxWidth && !force) {
        var k := SearchLongest(FitsAt(full, maxWidth, measure), 0, |full|);
        SearchPasses(FitsAt(full, maxWidth, measure), 0, |full|);
        assert k == 0 ==> Candidate(full, k) == Ellipsis;
      }
    }
  }

  /** `truncateOneLine`: the early exits, then the binary search. */
  method TruncateOneLine(text: string, maxWidth: real, force: bool, measure: string -> real) returns (r: Fitted)
    ensures r == Truncation(text, maxWidth, force, measure)
  {
    var full := Trim(text);
    if full == "" {
      return Fitted(full, false);
    }
    if maxWidth <= 0.0 {
      return Fitted(Ellipsis, true);
    }
    var fits := measure(full) <= maxWidth;
    if fits && !force {
      return Fitted(full, false);
    }
    var lo := LongestFitting(full, maxWidth, measure);
    var prefix := TrimEnd(full[..lo]);
    r := Fitted(if prefix != "" then prefix + Ellipsis else Ellipsis, true);
  }

  /** The binary search loop of `truncateOneLine` over the prefix length. */
  method LongestFitting(full: string, maxWidth: real, measure: string -> real) returns (lo: nat)
    ensures lo == SearchLongest(FitsAt(full, maxWidth, measure), 0, |full|)
  {
    ghost var test := FitsAt(full, maxWidth, measure);
    var hi := |full|;
    lo := 0;
    while lo < hi
      invariant 0 <= lo <= hi <= |full|
      invariant SearchLongest(test, lo, hi) == SearchLongest(test, 0, |full|)
      decreases hi - lo
    {
      var mid := (lo + hi + 1) / 2;
      var candidate := TrimEnd(full[..mid]) + Ellipsis;
      SearchStep(full, maxWidth, measure, lo, hi);
      if measure(candidate) <= maxWidth {
        lo := mid;
      } else {
        hi := mid - 1;
      }
    }
  }

  /** One halving of the search, with the candidate measured at the midpoint. */
  lemma SearchStep(full: string, maxWidth: real, measure: string -> real, lo: nat, hi: nat)
    requires lo < hi <= |full|
    ensures var mid := (lo + hi + 1) / 2;
      SearchLongest(FitsAt(full, maxWidth, measure), lo, hi)
        == if measure(TrimEnd(full[..mid]) + Ellipsis) <= maxWidth
           then SearchLongest(FitsAt(full, maxWidth, measure), mid, hi)
           else SearchLongest(FitsAt(full, maxWidth, measure), lo, mid - 1)
  {
    var mid := (lo + hi + 1) / 2;
    assert FitsAt(full, maxWidth, measure)(mid) == (measure(Candidate(full, mid)) <= maxWidth);
  }

  /** Longer prefixes never measure narrower once the ellipsis is appended. */
  predicate MonotoneCandidates(full: string, measure: string -> real) {
    forall i: nat, j: nat :: i <= j <= |full| ==> measure(Candidate(full, i)) <= measure(Candidate(full, j))
  }

  /** A test that, once it holds for a length up to `n`, holds for every shorter one. */
  predicate Downward(fits: nat -> bool, n: nat) {
    forall i: nat, j: nat :: i <= j <= n && fits(j) ==> fits(i)
  }

  /** `k` is the longest length up to `n` that passes the test (length 0 always qualifies). */
  predicate IsLongest(fits: nat -> bool, n: nat, k: nat) {
    && k <= n
    && (k == 0 || fits(k))
    && forall j: nat :: k < j <= n ==> !fits(j)
  }

  lemma {:induction false} SearchIsLongest(fits: nat -> bool, n: nat, lo: nat, hi: nat)
    requires lo <= hi <= n
    requires Downward(fits, n)
    requires lo == 0 || fits(lo)
    requires forall j: nat :: hi < j <= n ==> !fits(j)
    ensures IsLongest(fits, n, SearchLongest(fits, lo, hi))
    decreases hi - lo
  {
    if lo < hi {
      var mid := (lo + hi + 1) / 2;
      if fits(mid) {
        SearchIsLongest(fits, n, mid, hi);
      } else {
        SearchIsLongest(fits, n, lo, mid - 1);
      }
    }
  }

  lemma FittingIsDownward(full: string, maxWidth: real, measure: string -> real)
    requires MonotoneCandidates(full, measure)
    ensures Downward(FitsAt(full, maxWidth, measure), |full|)
  {
    var fits := FitsAt(full, maxWidth, measure);
    forall i: nat, j: nat | i <= j <= |full| && fits(j) ensures fits(i) {
      assert measure(Candidate(full, i)) <= measure(Candidate(full, j));
    }
  }

  /**
   * When longer prefixes never measure narrower, an ellipsized result keeps the longest prefix
   * whose candidate fits.
   */
  lemma TruncationIsLongest(text: string, maxWidth: real, force: bool, measure: string -> real)
    requires MonotoneCandidates(Trim(text), measure)
    requires maxWidth > 0.0
    ensures var r := Truncation(text, maxWidth, force, measure);
      r.ellipsized ==> exists k :: IsLongest(FitsAt(Trim(text), maxWidth, measure), |Trim(text)|, k)
                                 && r.text == Candidate(Trim(text), k)
  {
    var full := Trim(text);
    if Truncation(text, maxWidth, force, measure).ellipsized {
      var fits := FitsAt(full, maxWidth, measure);
      FittingIsDownward(full, maxWidth, measure);
      SearchIsLongest(fits, |full|, 0, |full|);
      var k := SearchLongest(fits, 0, |full|);
      assert IsLongest(fits, |full|, k);
    }
  }

  // ---------------------------------------------------------------------------------------------
  // wrapWordsMaxLines

  /** The texts of the line elements, the `linesUsed` result and whether the text was cut. */
  datatype Wrapped = Wrapped(lines: seq<string>, linesUsed: nat, ellipsized: bool)

  /** `Math.max(1, Math.min(3, Number(maxLines) || 1))`; zero falls back to one. */
  function SafeMaxLines(maxLines: int): (n: int)
    ensures 1 <= n <= 3
    ensures 1 <= maxLines <= 3 ==> n == maxLines
  {
    Clamp(maxLines, 1, 3)
  }

  /**
   * The loop of `wrapWordsMaxLines` from word `i`, with the committed lines `done` and the words
   * `cur` of the line being filled.
   */
  function WrapFrom(words: seq<string>, i: nat, done: seq<string>, cur: seq<string>,
                    maxWidth: real, safe: int, measure: string -> real): Wrapped
    requires i <= |words| && 1 <= safe
    decreases |words| - i
  {
    if i == |words| then Wrapped(done + [Join(cur)], |done| + 1, false)
    else
      var w := words[i];
      var candidate := if cur != [] then Join(cur) + " " + w else w;
      if measure(candidate) <= maxWidth then
        WrapFrom(words, i + 1, done, cur + [w], maxWidth, safe, measure)
      else if cur == [] then
        var t := Truncation(w, maxWidth, true, measure);
        Wrapped(done + [t.text], 1, t.ellipsized)
      else if |done| + 1 >= safe then
        var t := Truncation(Trim(Join(cur) + " " + w), maxWidth, true, measure);
        Wrapped(done + [t.text], safe, t.ellipsized)
      else if measure(w) > maxWidth then
        var t := Truncation(w, maxWidth, true, measure);
        Wrapped(done + [Join(cur), t.text], |done| + 2, t.ellipsized)
      else
        WrapFrom(words, i + 1, done + [Join(cur)], [w], maxWidth, safe, measure)
  }

  /** What `wrapWordsMaxLines` produces for a text. */
  function WrapWords(text: string, maxWidth: real, maxLines: int, measure: string -> real): Wrapped {
    var words := Words(Trim(text));
    if words == [] then Wrapped([], 0, false)
    else WrapFrom(words, 0, [], [], maxWidth, SafeMaxLines(maxLines), measure)
  }

  /**
   * One pass of the word loop of `wrapWordsMaxLines` on word `i`: the word joins the current line,
   * or starts a new one, or the function returns. Either way the rest of the run is unchanged.
   */
  method WrapStep(words: seq<string>, i: nat, done: seq<string>, lineWords: seq<string>,
                  maxWidth: real, safe: int, measure: string -> real)
    returns (done': seq<string>, lineWords': seq<string>, exit: Option<Wrapped>)
    requires i < |words| && 1 <= safe
    ensures exit.Some? ==> exit.value == WrapFrom(words, i, done, lineWords, maxWidth, safe, measure)
    ensures exit.None? ==>
      WrapFrom(words, i + 1, done', lineWords', maxWidth, safe, measure) == WrapFrom(words, i, done, lineWords, maxWidth, safe, measure)
  {
    var w := words[i];
    var candidate := if |lineWords| > 0 then Join(lineWords) + " " + w else w;
    if measure(candidate) <= maxWidth {
      return done, lineWords + [w], None;
    }
    if |lineWords| == 0 {
      var t := TruncateOneLine(w, maxWidth, true, measure);
      return done, lineWords, Some(Wrapped(done + [t.text], 1, t.ellipsized));
    }
    if |done| + 1 >= safe {
      var t := TruncateOneLine(Trim(Join(lineWords) + " " + w), maxWidth, true, measure);
      return done, lineWords, Some(Wrapped(done + [t.text], safe, t.ellipsized));
    }
    done' := done + [Join(lineWords)];
    lineWords' := [w];
    exit := None;
    if measure(w) > maxWidth {
      var t := TruncateOneLine(w, maxWidth, true, measure);
      assert done' + [t.text] == done + [Join(lineWords), t.text];
      exit := Some(Wrapped(done' + [t.text], |done'| + 1, t.ellipsized));
    }
  }

  /** `wrapWordsMaxLines`: the greedy word loop with its three early exits. */
  method WrapWordsMaxLines(text: string, maxWidth: real, maxLines: int, measure: string -> real) returns (r: Wrapped)
    ensures r == WrapWords(text, maxWidth, maxLines, measure)
  {
    var words := Words(Trim(text));
    if |words| == 0 {
      return Wrapped([], 0, false);
    }
    var safe := SafeMaxLines(maxLines);
    var done: seq<string> := [];
    var lineWords: seq<string> := [];
    ghost var spec := WrapWords(text, maxWidth, maxLines, measure);
    for i := 0 to |words|
      invariant WrapFrom(words, i, done, lineWords, maxWidth, safe, measure) == spec
    {
      var exit;
      done, lineWords, exit := WrapStep(words, i, done, lineWords, maxWidth, safe, measure);
      if exit.Some? {
        return exit.value;
      }
    }
    r := Wrapped(done + [Join(lineWords)], |done| + 1, false);
  }

  /** Every line fits the width or is the bare ellipsis. */
  predicate LinesFit(lines: seq<string>, maxWidth: real, measure: string -> real) {
    forall j :: 0 <= j < |lines| ==> lines[j] == Ellipsis || measure(lines[j]) <= maxWidth
  }

  lemma LinesFitSnoc(lines: seq<string>, x: string, maxWidth: real, measure: string -> real)
    requires LinesFit(lines, maxWidth, measure)
    requires x == Ellipsis || measure(x) <= maxWidth
    ensures LinesFit(lines + [x], maxWidth, measure)
  {
    forall j | 0 <= j < |lines| + 1 ensures (lines + [x])[j] == Ellipsis || measure((lines + [x])[j]) <= maxWidth {
      if j < |lines| {
        assert (lines + [x])[j] == lines[j];
      }
    }
  }

  /** The loop invariant behind `WrapLines`. */
  predicate WrapState(words: seq<string>, i: nat, done: seq<string>, cur: seq<string>,
                      maxWidth: real, safe: int, measure: string -> real)
  {
    && i <= |words|
    && 1 <= safe
    && AllSolid(words)
    && (cur == [] <==> i == 0)
    && (cur == [] ==> done == [])
    && |done| < safe
    && LinesFit(done, maxWidth, measure)
    && (forall j :: 0 <= j < |done| ==> measure(done[j]) <= maxWidth)
    && (cur != [] ==> measure(Join(cur)) <= maxWidth)
    && (i > 0 ==> Join(done + [Join(cur)]) == Join(words[..i]))
  }

  predicate EndsWithEllipsis(s: string) {
    |s| >= |Ellipsis| && s[|s| - |Ellipsis|..] == Ellipsis
  }

  /** What `WrapLines` states about a result, given the words it wraps and the line limit. */
  predicate WrapResultOk(r: Wrapped, words: seq<string>, maxWidth: real, safe: int, measure: string -> real) {
    && |r.lines| == r.linesUsed
    && 1 <= r.linesUsed <= safe
    && LinesFit(r.lines, maxWidth, measure)
    && (!r.ellipsized ==> Join(r.lines) == Join(words))
    && (!r.ellipsized ==> forall j :: 0 <= j < |r.lines| ==> measure(r.lines[j]) <= maxWidth)
    && (r.ellipsized ==> EndsWithEllipsis(r.lines[|r.lines| - 1]))
  }

  /** An early exit: the committed lines and one forced truncation as the last line. */
  lemma EarlyExitOk(done: seq<string>, text: string, n: nat, words: seq<string>,
                    maxWidth: real, safe: int, measure: string -> real)
    requires LinesFit(done, maxWidth, measure)
    requires Trim(text) != ""
    requires n == |done| + 1 && 1 <= n <= safe
    ensures WrapResultOk(Wrapped(done + [Truncation(text, maxWidth, true, measure).text], n,
                                 Truncation(text, maxWidth, true, measure).ellipsized), words, maxWidth, safe, measure)
  {
    var t := Truncation(text, maxWidth, true, measure);
    TruncationShape(text, maxWidth, true, measure);
    TruncationEnds(text, maxWidth, measure);
    LinesFitSnoc(done, t.text, maxWidth, measure);
  }

  /** A word that fits on the current line keeps the loop invariant. */
  lemma WrapFitsStep(words: seq<string>, i: nat, done: seq<string>, cur: seq<string>,
                     maxWidth: real, safe: int, measure: string -> real)
    requires WrapState(words, i, done, cur, maxWidth, safe, measure) && i < |words|
    requires measure(if cur != [] then Join(cur) + " " + words[i] else words[i]) <= maxWidth
    ensures WrapState(words, i + 1, done, cur + [words[i]], maxWidth, safe, measure)
  {
    if cur != [] {
      WrapExtendLine(words, i, done, cur, maxWidth, safe, measure);
    } else {
      var w := words[i];
      assert i == 0 && done == [];
      assert words[..1] == [w] && [] + [w] == [w];
    }
  }

  lemma WrapExtendLine(words: seq<string>, i: nat, done: seq<string>, cur: seq<string>,
                       maxWidth: real, safe: int, measure: string -> real)
    requires WrapState(words, i, done, cur, maxWidth, safe, measure) && i < |words|
    requires cur != [] && measure(Join(cur) + " " + words[i]) <= maxWidth
    ensures WrapState(words, i + 1, done, cur + [words[i]], maxWidth, safe, measure)
  {
    var w := words[i];
    assert words[..i + 1] == words[..i] + [w];
    JoinSnoc(cur, w);
    LineJoinStep(done, cur, w, words[..i]);
  }

  /** Appending a word to the current line appends it to the joined text so far. */
  lemma LineJoinStep(done: seq<string>, cur: seq<string>, w: string, prefix: seq<string>)
    requires cur != [] && prefix != []
    requires Join(done + [Join(cur)]) == Join(prefix)
    ensures Join(done + [Join(cur + [w])]) == Join(prefix + [w])
  {
    calc {
      Join(done + [Join(cur + [w])]);
      { JoinSnoc(cur, w); assert Join(cur) + " " + w == Join(cur) + (" " + w); }
      Join(done + [Join(cur) + (" " + w)]);
      { JoinLastExtend(done, Join(cur), " " + w); }
      Join(done + [Join(cur)]) + (" " + w);
      Join(prefix) + (" " + w);
      { JoinSnoc(prefix, w); assert Join(prefix) + " " + w == Join(prefix) + (" " + w); }
      Join(prefix + [w]);
    }
  }

  /** Committing the current line and starting a new one with a word that fits keeps the invariant. */
  lemma WrapNewLineStep(words: seq<string>, i: nat, done: seq<string>, cur: seq<string>,
                        maxWidth: real, safe: int, measure: string -> real)
    requires WrapState(words, i, done, cur, maxWidth, safe, measure) && i < |words|
    requires cur != [] && |done| + 1 < safe && measure(words[i]) <= maxWidth
    ensures WrapState(words, i + 1, done + [Join(cur)], [words[i]], maxWidth, safe, measure)
  {
    var w := words[i];
    var done2 := done + [Join(cur)];
    assert words[..i + 1] == words[..i] + [w];
    LinesFitSnoc(done, Join(cur), maxWidth, measure);
    JoinSnoc(done2, w);
    assert done2 + [Join([w])] == done2 + [w];
    JoinSnoc(words[..i], w);
  }

  /** The loop ran out of words: the current line is committed and everything fits. */
  lemma WrapEndOk(words: seq<string>, i: nat, done: seq<string>, cur: seq<string>,
                  maxWidth: real, safe: int, measure: string -> real)
    requires WrapState(words, i, done, cur, maxWidth, safe, measure)
    requires words != [] && i == |words|
    ensures WrapResultOk(WrapFrom(words, i, done, cur, maxWidth, safe, measure), words, maxWidth, safe, measure)
  {
    assert words[..i] == words;
    LinesFitSnoc(done, Join(cur), maxWidth, measure);
  }

  /** The first word alone is too wide: it becomes the only line, forcibly truncated. */
  lemma WrapExitFirstWord(words: seq<string>, i: nat, maxWidth: real, safe: int, measure: string -> real)
    requires i < |words| && Solid(words[i]) && 1 <= safe
    requires measure(words[i]) > maxWidth
    ensures WrapResultOk(WrapFrom(words, i, [], [], maxWidth, safe, measure), words, maxWidth, safe, measure)
  {
    var t := Truncation(words[i], maxWidth, true, measure);
    assert WrapFrom(words, i, [], [], maxWidth, safe, measure) == Wrapped([] + [t.text], 1, t.ellipsized);
    EarlyExitOk([], words[i], 1, words, maxWidth, safe, measure);
  }

  /** The last allowed line overflows: the line with the next word is trimmed and truncated. */
  lemma WrapExitLastLine(words: seq<string>, i: nat, done: seq<string>, cur: seq<string>,
                         maxWidth: real, safe: int, measure: string -> real)
    requires i < |words| && Solid(words[i]) && cur != []
    requires 1 <= safe && |done| + 1 == safe && LinesFit(done, maxWidth, measure)
    requires measure(Join(cur) + " " + words[i]) > maxWidth
    ensures WrapResultOk(WrapFrom(words, i, done, cur, maxWidth, safe, measure), words, maxWidth, safe, measure)
  {
    var w := words[i];
    var s := Join(cur) + " " + w;
    var t := Truncation(Trim(s), maxWidth, true, measure);
    assert WrapFrom(words, i, done, cur, maxWidth, safe, measure) == Wrapped(done + [t.text], safe, t.ellipsized);
    TrimEndShape(TrimStart(w));
    assert s[|s| - 1] == w[|w| - 1];
    TrimNonEmpty(s);
    TrimTwice(s);
    EarlyExitOk(done, Trim(s), safe, words, maxWidth, safe, measure);
  }

  /** A word too wide for a line of its own: the current line is committed and the word truncated. */
  lemma WrapExitLongWord(words: seq<string>, i: nat, done: seq<string>, cur: seq<string>,
                         maxWidth: real, safe: int, measure: string -> real)
    requires i < |words| && Solid(words[i]) && cur != []
    requires 1 <= safe && |done| + 1 < safe && LinesFit(done, maxWidth, measure)
    requires measure(Join(cur)) <= maxWidth
    requires measure(Join(cur) + " " + words[i]) > maxWidth && measure(words[i]) > maxWidth
    ensures WrapResultOk(WrapFrom(words, i, done, cur, maxWidth, safe, measure), words, maxWidth, safe, measure)
  {
    var w := words[i];
    var done2 := done + [Join(cur)];
    var t := Truncation(w, maxWidth, true, measure);
    assert WrapFrom(words, i, done, cur, maxWidth, safe, measure) == Wrapped(done + [Join(cur), t.text], |done| + 2, t.ellipsized);
    LinesFitSnoc(done, Join(cur), maxWidth, measure);
    EarlyExitOk(done2, w, |done| + 2, words, maxWidth, safe, measure);
    assert done2 + [t.text] == done + [Join(cur), t.text];
  }

  /** Every run of the word loop from a state that keeps the invariant ends in a good result. */
  lemma {:induction false} WrapFromLines(words: seq<string>, i: nat, done: seq<string>, cur: seq<string>,
                                         maxWidth: real, safe: int, measure: string -> real)
    requires WrapState(words, i, done, cur, maxWidth, safe, measure)
    requires words != []
    ensures WrapResultOk(WrapFrom(words, i, done, cur, maxWidth, safe, measure), words, maxWidth, safe, measure)
    decreases |words| - i
  {
    if i == |words| {
      WrapEndOk(words, i, done, cur, maxWidth, safe, measure);
    } else {
      var w := words[i];
      if measure(if cur != [] then Join(cur) + " " + w else w) <= maxWidth {
        WrapFitsStep(words, i, done, cur, maxWidth, safe, measure);
        WrapFromLines(words, i + 1, done, cur + [w], maxWidth, safe, measure);
        assert WrapFrom(words, i, done, cur, maxWidth, safe, measure)
            == WrapFrom(words, i + 1, done, cur + [w], maxWidth, safe, measure);
      } else if cur != [] && |done| + 1 < safe && measure(w) <= maxWidth {
        WrapNewLineStep(words, i, done, cur, maxWidth, safe, measure);
        WrapFromLines(words, i + 1, done + [Join(cur)], [w], maxWidth, safe, measure);
        assert WrapFrom(words, i, done, cur, maxWidth, safe, measure)
            == WrapFrom(words, i + 1, done + [Join(cur)], [w], maxWidth, safe, measure);
      } else {
        AllSolidAt(words, i);
        if cur == [] {
          WrapExitFirstWord(words, i, maxWidth, safe, measure);
        } else if |done| + 1 >= safe {
          WrapExitLastLine(words, i, done, cur, maxWidth, safe, measure);
        } else {
          WrapExitLongWord(words, i, done, cur, maxWidth, safe, measure);
        }
      }
    }
  }

  /** A forced truncation of a non-empty text always cuts and ends with the ellipsis. */
  lemma TruncationEnds(text: string, maxWidth: real, measure: string -> real)
    requires Trim(text) != ""
    ensures Truncation(text, maxWidth, true, measure).ellipsized
    ensures EndsWithEllipsis(Truncation(text, maxWidth, true, measure).text)
  {
    var r := Truncation(text, maxWidth, true, measure);
    TruncationShape(text, maxWidth, true, measure);
    var k :| 0 <= k <= |Trim(text)| && r.text == Candidate(Trim(text), k);
    var p := TrimEnd(Trim(text)[..k]);
    assert r.text[|r.text| - 2..] == Ellipsis;
  }

  /**
   * `wrapWordsMaxLines` reports no lines exactly for a text without words; otherwise between one
   * and the line limit, one line element per reported line. Every line fits or is the bare
   * ellipsis; a result that is not ellipsized shows all the words in order on lines that all fit,
   * and an ellipsized one ends its last line with the ellipsis.
   */
  lemma WrapLines(text: string, maxWidth: real, maxLines: int, measure: string -> real)
    ensures var r := WrapWords(text, maxWidth, maxLines, measure);
      && (Words(Trim(text)) == [] ==> r == Wrapped([], 0, false))
      && (Words(Trim(text)) != [] ==> WrapResultOk(r, Words(Trim(text)), maxWidth, SafeMaxLines(maxLines), measure))
  {
    var words := Words(Trim(text));
    if words != [] {
      WordsAreSolid(words);
      WrapFromLines(words, 0, [], [], maxWidth, SafeMaxLines(maxLines), measure);
    }
  }
}
