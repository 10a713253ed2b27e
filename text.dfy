/**
 * The parts of Python's `str` that the bot relies on, with CPython's semantics:
 * whitespace as `str.isspace()` sees it, `strip()`, `split()`, `split(sep)`,
 * `splitlines()`, `sep.join(...)`, `int(...)` and `str(int)`.
 */
module Text {
  import opened Wrappers

  /** `c.isspace()`: the characters `split()`, `strip()`, `int()` and the regex class `\s` skip. */
  predicate IsSpace(c: char) {
    || c == ' '
    || ('\t' <= c <= '\r')
    || ('\U{1c}' <= c <= '\U{1f}')
    || c == '\U{85}' || c == '\U{a0}' || c == '\U{1680}'
    || ('\U{2000}' <= c <= '\U{200a}')
    || c == '\U{2028}' || c == '\U{2029}' || c == '\U{202f}' || c == '\U{205f}' || c == '\U{3000}'
  }

  predicate NoSpace(s: string) {
    forall i :: 0 <= i < |s| ==> !IsSpace(s[i])
  }

  /** One element of `s.split()`: a non-empty run of non-whitespace characters. */
  predicate IsWord(w: string) {
    |w| > 0 && NoSpace(w)
  }

  /** A non-empty string that `strip()` leaves alone. */
  predicate Trimmed(s: string) {
    |s| > 0 && !IsSpace(s[0]) && !IsSpace(s[|s| - 1])
  }

  predicate IsDigit(c: char) {
    '0' <= c <= '9'
  }

  // ---------------------------------------------------------------- strip

  function LeadingSpaces(s: string): (k: nat)
    ensures k <= |s|
    ensures forall j :: 0 <= j < k ==> IsSpace(s[j])
    ensures k < |s| ==> !IsSpace(s[k])
  {
    if s != [] && IsSpace(s[0]) then 1 + LeadingSpaces(s[1..]) else 0
  }

  function TrailingSpaces(s: string): (k: nat)
    ensures k <= |s|
    ensures forall j :: |s| - k <= j < |s| ==> IsSpace(s[j])
    ensures k < |s| ==> !IsSpace(s[|s| - 1 - k])
  {
    if s != [] && IsSpace(s[|s| - 1]) then 1 + TrailingSpaces(s[..|s| - 1]) else 0
  }

  /** `s.strip()`: `s` without its leading and trailing whitespace. */
  function Strip(s: string): (r: string)
    ensures |r| <= |s|
    ensures r == [] || Trimmed(r)
    ensures r == [] <==> forall j :: 0 <= j < |s| ==> IsSpace(s[j])
    ensures exists k :: Around(s, k, r)
  {
    var k := LeadingSpaces(s);
    var t := s[k..];
    var r := t[..|t| - TrailingSpaces(t)];
    assert Around(s, k, r);
    r
  }

  /** `s` is `r` with only whitespace before it (the first `k` characters) and after it. */
  predicate Around(s: string, k: nat, r: string) {
    && k + |r| <= |s|
    && r == s[k..k + |r|]
    && (forall j :: 0 <= j < k ==> IsSpace(s[j]))
    && (forall j :: k + |r| <= j < |s| ==> IsSpace(s[j]))
  }

  lemma StripTrimmed(s: string)
    requires s == [] || Trimmed(s)
    ensures Strip(s) == s
  {
  }

  /**
   * The test string of the word-wrap loop: `f"{line} {word}".strip()` is the
   * word alone when the line is empty, and the line, a space and the word otherwise.
   */
  lemma StripJoined(line: string, word: string)
    requires line == [] || Trimmed(line)
    requires IsWord(word)
    ensures Strip(line + " " + word) == if line == [] then word else line + " " + word
  {
    var s := line + " " + word;
    if line == [] {
      assert s[1..] == word;
      assert LeadingSpaces(s) == 1;
      assert TrailingSpaces(word) == 0;
    } else {
      assert LeadingSpaces(s) == 0;
      assert TrailingSpaces(s) == 0;
      assert s[0..][..|s|] == s;
    }
  }

  // ---------------------------------------------------------------- split()

  /** Length of the run of non-whitespace characters that starts `s`. */
  function WordLength(s: string): (n: nat)
    ensures n <= |s|
    ensures forall j :: 0 <= j < n ==> !IsSpace(s[j])
    ensures n < |s| ==> IsSpace(s[n])
  {
    if s != [] && !IsSpace(s[0]) then 1 + WordLength(s[1..]) else 0
  }

  /** The first word of a string that does not start with whitespace. */
  function FirstWord(s: string): string {
    s[..WordLength(s)]
  }

  lemma {:induction false} WordLengthPrefix(a: string, b: string)
    requires WordLength(a) < |a|
    ensures WordLength(a + b) == WordLength(a)
    decreases |a|
  {
    if !IsSpace(a[0]) {
      assert (a + b)[1..] == a[1..] + b;
      WordLengthPrefix(a[1..], b);
    }
  }

  /** Appending more words after a space never changes the first word. */
  lemma FirstWordExtended(line: string, word: string)
    requires Trimmed(line)
    ensures FirstWord(line + " " + word) == FirstWord(line)
  {
    if WordLength(line) < |line| {
      WordLengthPrefix(line, " " + word);
      assert line + " " + word == line + (" " + word);
      assert (line + " " + word)[..WordLength(line)] == line[..WordLength(line)];
    } else {
      assert NoSpace(line);
      assert line + " " + word == line + (" " + word);
      WordLengthOfWord(line, " " + word);
    }
  }

  lemma FirstWordOfWord(w: string)
    requires IsWord(w)
    ensures FirstWord(w) == w
  {
    assert WordLength(w) == |w|;
  }

  /** `s.split()`: the maximal runs of non-whitespace characters of `s`, in order. */
  function Words(s: string): (ws: seq<string>)
    ensures forall i :: 0 <= i < |ws| ==> IsWord(ws[i])
    decreases |s|
  {
    var t := s[LeadingSpaces(s)..];
    if t == [] then []
    else [t[..WordLength(t)]] + Words(t[WordLength(t)..])
  }

  /** `s.split()` is empty exactly when `s` is all whitespace. */
  lemma WordsEmpty(s: string)
    ensures Words(s) == [] <==> forall j :: 0 <= j < |s| ==> IsSpace(s[j])
  {
    var k := LeadingSpaces(s);
    if k < |s| {
      assert s[k..][0] == s[k];
    }
  }

  predicate AllSpace(s: string) {
    forall j :: 0 <= j < |s| ==> IsSpace(s[j])
  }

  /** The whitespace runs around and between the words of `s.split()`, in order. */
  function Gaps(s: string): (gs: seq<string>)
    ensures |gs| >= 1
    decreases |s|
  {
    var k := LeadingSpaces(s);
    var t := s[k..];
    if t == [] then [s]
    else
      assert t[0] == s[k];
      [s[..k]] + Gaps(t[WordLength(t)..])
  }

  /** One step of `Words` and `Gaps` together: the leading run, the first word, the rest. */
  lemma WordsUnfold(s: string, k: nat, t: string, n: nat)
    requires k == LeadingSpaces(s) && t == s[k..] && t != [] && n == WordLength(t)
    ensures 0 < n
    ensures Words(s) == [t[..n]] + Words(t[n..])
    ensures Gaps(s) == [s[..k]] + Gaps(t[n..])
  {
    assert t[0] == s[k];
  }

  /** `gaps[0] + words[0] + gaps[1] + … + words[n - 1] + gaps[n]`. */
  function Interleave(gaps: seq<string>, words: seq<string>): string
    requires |gaps| == |words| + 1
  {
    if words == [] then gaps[0] else gaps[0] + words[0] + Interleave(gaps[1..], words[1..])
  }

  /** Whitespace runs where every run strictly between two words is non-empty. */
  predicate Separating(gaps: seq<string>) {
    && (forall i :: 0 <= i < |gaps| ==> AllSpace(gaps[i]))
    && (forall i :: 0 < i < |gaps| - 1 ==> gaps[i] != [])
  }

  /**
   * `s.split()` takes `s` apart completely: `s` is its words, in order, with
   * whitespace runs between them (at least one character between two words)
   * and possibly whitespace at either end.
   */
  lemma {:induction false} WordsDecompose(s: string)
    ensures |Gaps(s)| == |Words(s)| + 1
    ensures Interleave(Gaps(s), Words(s)) == s
    ensures Separating(Gaps(s))
    decreases |s|
  {
    var k := LeadingSpaces(s);
    var t := s[k..];
    if t != [] {
      var n := WordLength(t);
      WordsUnfold(s, k, t, n);
      WordsDecompose(t[n..]);
      InterleaveStep(s, k, n);
      SeparatingStep(s, k, n);
    }
  }

  /** The `Interleave` equation of `WordsDecompose` for `s`, from the one for what follows its first word. */
  lemma InterleaveStep(s: string, k: nat, n: nat)
    requires k == LeadingSpaces(s) && k < |s| && n == WordLength(s[k..])
    requires Words(s) == [s[k..][..n]] + Words(s[k..][n..])
    requires Gaps(s) == [s[..k]] + Gaps(s[k..][n..])
    requires |Gaps(s[k..][n..])| == |Words(s[k..][n..])| + 1
    requires Interleave(Gaps(s[k..][n..]), Words(s[k..][n..])) == s[k..][n..]
    ensures |Gaps(s)| == |Words(s)| + 1
    ensures Interleave(Gaps(s), Words(s)) == s
  {
    var u := s[k..][n..];
    InterleaveCons(s[..k], s[k..][..n], Gaps(u), Words(u));
    CutTwice(s, k, n);
  }

  /** The `Separating` conclusion of `WordsDecompose` for `s`, from the one for what follows its first word. */
  lemma SeparatingStep(s: string, k: nat, n: nat)
    requires k == LeadingSpaces(s) && k < |s| && n == WordLength(s[k..])
    requires Gaps(s) == [s[..k]] + Gaps(s[k..][n..])
    requires |Gaps(s[k..][n..])| == |Words(s[k..][n..])| + 1
    requires Separating(Gaps(s[k..][n..]))
    ensures Separating(Gaps(s))
  {
    var u := s[k..][n..];
    if |Gaps(u)| > 1 {
      WordsNonEmpty(u);
      assert u[0] == s[k..][n];
      assert Gaps(u)[0] != [];
    }
    SeparatingCons(s[..k], Gaps(u));
  }

  /** A string with a word in it does not consist of whitespace only. */
  lemma WordsNonEmpty(s: string)
    requires Words(s) != []
    ensures LeadingSpaces(s) < |s|
  {
  }

  /** Conversely, splitting words laid out between whitespace runs gives those words back. */
  lemma {:induction false} WordsOfInterleave(gaps: seq<string>, words: seq<string>)
    requires |gaps| == |words| + 1 && Separating(gaps)
    requires forall i :: 0 <= i < |words| ==> IsWord(words[i])
    ensures Words(Interleave(gaps, words)) == words
    decreases |words|
  {
    var s := Interleave(gaps, words);
    if words == [] {
      assert AllSpace(gaps[0]);
      LeadingSpacesOfBlank(s, []);
      assert s + [] == s;
    } else {
      var w, rest := words[0], Interleave(gaps[1..], words[1..]);
      InterleaveHead(gaps, words);
      WordsUnfold(s, |gaps[0]|, w + rest, |w|);
      SeparatingTail(gaps);
      WordsOfInterleave(gaps[1..], words[1..]);
      assert words == [w] + words[1..];
    }
  }

  /** Where the first word of an interleaving starts and ends. */
  lemma InterleaveHead(gaps: seq<string>, words: seq<string>)
    requires |gaps| == |words| + 1 && Separating(gaps) && words != []
    requires IsWord(words[0])
    ensures var s, rest := Interleave(gaps, words), Interleave(gaps[1..], words[1..]);
      && LeadingSpaces(s) == |gaps[0]|
      && s[|gaps[0]|..] == words[0] + rest
      && WordLength(words[0] + rest) == |words[0]|
      && (words[0] + rest)[..|words[0]|] == words[0]
      && (words[0] + rest)[|words[0]|..] == rest
  {
    var g, w := gaps[0], words[0];
    var rest := Interleave(gaps[1..], words[1..]);
    assert Interleave(gaps, words) == g + (w + rest);
    assert AllSpace(g);
    LeadingSpacesOfBlank(g, w + rest);
    assert (g + (w + rest))[|g|..] == w + rest;
    if |words| > 1 {
      assert gaps[1] != [];
      assert rest[0] == gaps[1][0];
    } else {
      assert rest == gaps[1];
    }
    WordLengthOfWord(w, rest);
    assert (w + rest)[..|w|] == w && (w + rest)[|w|..] == rest;
  }

  lemma SeparatingTail(gaps: seq<string>)
    requires Separating(gaps) && gaps != []
    ensures Separating(gaps[1..])
  {
    forall i | 0 <= i < |gaps[1..]| ensures gaps[1..][i] == gaps[i + 1] { }
  }

  lemma {:induction false} LeadingSpacesOfBlank(g: string, x: string)
    requires AllSpace(g)
    requires x == [] || !IsSpace(x[0])
    ensures LeadingSpaces(g + x) == |g|
    decreases |g|
  {
    if g != [] {
      assert (g + x)[1..] == g[1..] + x;
      LeadingSpacesOfBlank(g[1..], x);
    } else {
      assert g + x == x;
    }
  }

  lemma {:induction false} WordLengthOfWord(w: string, rest: string)
    requires NoSpace(w)
    requires rest == [] || IsSpace(rest[0])
    ensures WordLength(w + rest) == |w|
    decreases |w|
  {
    if w != [] {
      assert (w + rest)[1..] == w[1..] + rest;
      WordLengthOfWord(w[1..], rest);
    } else {
      assert w + rest == rest;
    }
  }

  lemma CutTwice(s: string, k: nat, n: nat)
    requires k + n <= |s|
    ensures s == s[..k] + s[k..][..n] + s[k..][n..]
  {
    assert s[k..] == s[k..][..n] + s[k..][n..];
  }

  lemma InterleaveCons(g: string, w: string, gaps: seq<string>, words: seq<string>)
    requires |gaps| == |words| + 1
    ensures Interleave([g] + gaps, [w] + words) == g + w + Interleave(gaps, words)
  {
    assert ([g] + gaps)[1..] == gaps && ([w] + words)[1..] == words;
  }

  lemma SeparatingCons(g: string, gaps: seq<string>)
    requires AllSpace(g) && Separating(gaps)
    requires |gaps| > 1 ==> gaps[0] != []
    ensures Separating([g] + gaps)
  {
    var gs := [g] + gaps;
    forall i | 0 < i < |gs|
      ensures gs[i] == gaps[i - 1]
    {
    }
  }

  // ---------------------------------------------------------------- join and split(sep)

  /** `sep.join(parts)`. */
  function Join(sep: string, parts: seq<string>): string {
    if |parts| == 0 then ""
    else if |parts| == 1 then parts[0]
    else parts[0] + sep + Join(sep, parts[1..])
  }

  lemma {:induction false} JoinAppend(sep: string, parts: seq<string>, x: string)
    ensures Join(sep, parts + [x]) == if parts == [] then x else Join(sep, parts) + sep + x
    decreases |parts|
  {
    if |parts| == 1 {
      assert parts + [x] == [parts[0], x];
    } else if |parts| > 1 {
      assert (parts + [x])[1..] == parts[1..] + [x];
      JoinAppend(sep, parts[1..], x);
    }
  }

  /** Index of the first `c` in `s`, or `|s|` when there is none. */
  function IndexOf(s: string, c: char): (i: nat)
    ensures i <= |s|
    ensures forall j :: 0 <= j < i ==> s[j] != c
    ensures i < |s| ==> s[i] == c
  {
    if s == [] then 0 else if s[0] == c then 0 else 1 + IndexOf(s[1..], c)
  }

  /** `s.split(c)` for a one-character separator. */
  function SplitOn(s: string, c: char): (parts: seq<string>)
    ensures |parts| >= 1
    ensures forall k :: 0 <= k < |parts| ==> c !in parts[k]
    decreases |s|
  {
    var i := IndexOf(s, c);
    if i == |s| then [s] else [s[..i]] + SplitOn(s[i + 1..], c)
  }

  lemma {:induction false} IndexOfAfter(a: string, c: char, b: string)
    requires c !in a
    ensures IndexOf(a + [c] + b, c) == |a|
    decreases |a|
  {
    if a != [] {
      assert (a + [c] + b)[1..] == a[1..] + [c] + b;
      IndexOfAfter(a[1..], c, b);
    }
  }

  /** A separator-free head followed by the separator splits off as the first part. */
  lemma SplitOnCons(a: string, c: char, b: string)
    requires c !in a
    ensures SplitOn(a + [c] + b, c) == [a] + SplitOn(b, c)
  {
    var s := a + [c] + b;
    IndexOfAfter(a, c, b);
    assert s[..|a|] == a;
    assert s[|a| + 1..] == b;
  }

  /** Splitting a join on a separator that occurs in no part gives the parts back. */
  lemma {:induction false} SplitOnJoin(parts: seq<string>, c: char)
    requires |parts| >= 1
    requires forall k :: 0 <= k < |parts| ==> c !in parts[k]
    ensures SplitOn(Join([c], parts), c) == parts
    decreases |parts|
  {
    if |parts| == 1 {
      assert IndexOf(parts[0], c) == |parts[0]|;
    } else {
      var rest := Join([c], parts[1..]);
      assert Join([c], parts) == parts[0] + [c] + rest;
      SplitOnCons(parts[0], c, rest);
      SplitOnJoin(parts[1..], c);
      assert parts == [parts[0]] + parts[1..];
    }
  }

  /** Joining what `split(c)` produced restores the string. */
  lemma {:induction false} JoinSplitOn(s: string, c: char)
    ensures Join([c], SplitOn(s, c)) == s
    decreases |s|
  {
    var i := IndexOf(s, c);
    if i < |s| {
      JoinSplitOn(s[i + 1..], c);
      var tail := SplitOn(s[i + 1..], c);
      assert SplitOn(s, c) == [s[..i]] + tail;
      assert s == s[..i] + [c] + s[i + 1..];
    }
  }

  // ---------------------------------------------------------------- splitlines()

  /** The line boundaries of `str.splitlines()`. */
  predicate IsLineBreak(c: char) {
    || c == '\n' || c == '\r' || c == '\U{0b}' || c == '\U{0c}'
    || c == '\U{1c}' || c == '\U{1d}' || c == '\U{1e}' || c == '\U{85}'
    || c == '\U{2028}' || c == '\U{2029}'
  }

  predicate NoBreak(line: string) {
    forall j :: 0 <= j < |line| ==> !IsLineBreak(line[j])
  }

  function LineEnd(s: string): (i: nat)
    ensures i <= |s|
    ensures forall j :: 0 <= j < i ==> !IsLineBreak(s[j])
    ensures i < |s| ==> IsLineBreak(s[i])
  {
    if s == [] || IsLineBreak(s[0]) then 0 else 1 + LineEnd(s[1..])
  }

  /** The boundary at `i` is "\r\n" when a '\n' follows a '\r', and one character otherwise. */
  function BoundaryLength(s: string, i: nat): (n: nat)
    requires i < |s|
    ensures 1 <= n && i + n <= |s|
  {
    if s[i] == '\r' && i + 1 < |s| && s[i + 1] == '\n' then 2 else 1
  }

  /**
   * `s.splitlines()`: the lines of `s` without their boundaries, where "\r\n"
   * counts as one boundary and a final boundary does not start an empty line.
   */
  function SplitLines(s: string): (lines: seq<string>)
    ensures forall k :: 0 <= k < |lines| ==> NoBreak(lines[k])
    decreases |s|
  {
    if s == [] then []
    else
      var i := LineEnd(s);
      if i == |s| then [s]
      else
        var skip := BoundaryLength(s, i);
        [s[..i]] + SplitLines(s[i + skip..])
  }

  /** A line boundary of `splitlines()`: "\r\n", or one line-break character. */
  predicate IsBoundary(b: string) {
    b == "\r\n" || (|b| == 1 && IsLineBreak(b[0]))
  }

  /** The boundary that ends each line of `s.splitlines()`; the last line may end with none. */
  function LineEnds(s: string): (ends: seq<string>)
    decreases |s|
  {
    if s == [] then []
    else
      var i := LineEnd(s);
      if i == |s| then [""]
      else
        var skip := BoundaryLength(s, i);
        [s[i..i + skip]] + LineEnds(s[i + skip..])
  }

  /** `lines[0] + ends[0] + lines[1] + ends[1] + …`. */
  function Glue(lines: seq<string>, ends: seq<string>): string
    requires |lines| == |ends|
  {
    if lines == [] then "" else lines[0] + ends[0] + Glue(lines[1..], ends[1..])
  }

  /**
   * How `splitlines()` cuts: every line but the last ends with a boundary, the
   * last one ends with a boundary or is non-empty and ends the text, and a
   * "\r" boundary is never directly followed by "\n" (that pair is one boundary).
   */
  predicate ProperEnds(lines: seq<string>, ends: seq<string>) {
    && |lines| == |ends|
    && (forall k :: 0 <= k < |ends| - 1 ==> IsBoundary(ends[k]))
    && (|ends| > 0 ==> IsBoundary(ends[|ends| - 1]) || (ends[|ends| - 1] == "" && lines[|lines| - 1] != ""))
    && (forall k :: 0 <= k < |ends| - 1 && ends[k] == "\r" ==> lines[k + 1] != "" || ends[k + 1] != "\n")
  }

  /** `s.splitlines()` takes `s` apart completely: each line followed by its boundary rebuilds `s`. */
  lemma {:induction false} SplitLinesGlue(s: string)
    ensures |SplitLines(s)| == |LineEnds(s)|
    ensures Glue(SplitLines(s), LineEnds(s)) == s
    decreases |s|
  {
    if s != [] {
      var i := LineEnd(s);
      if i == |s| {
        assert s[..i] == s;
      } else {
        var skip := BoundaryLength(s, i);
        var rest := s[i + skip..];
        SplitLinesGlue(rest);
        GlueCons(s[..i], s[i..i + skip], SplitLines(rest), LineEnds(rest));
        CutThree(s, i, i + skip);
      }
    }
  }

  /** The cuts `s.splitlines()` makes are its line boundaries, "\r\n" taken whole. */
  lemma {:induction false} SplitLinesProper(s: string)
    ensures ProperEnds(SplitLines(s), LineEnds(s))
    decreases |s|
  {
    SplitLinesGlue(s);
    if s != [] {
      var i := LineEnd(s);
      if i == |s| {
        assert SplitLines(s) == [s] && LineEnds(s) == [""];
      } else {
        var skip := BoundaryLength(s, i);
        var rest := s[i + skip..];
        SplitLinesGlue(rest);
        SplitLinesProper(rest);
        var end := s[i..i + skip];
        BoundaryAt(s, i);
        if end == "\r" && rest != [] {
          assert rest[0] == s[i + 1];
          FirstLineOfBreak(rest);
        }
        ProperEndsCons(s[..i], end, SplitLines(rest), LineEnds(rest));
      }
    }
  }

  /** Conversely, `splitlines()` of lines glued with proper boundaries gives those lines back. */
  lemma {:induction false} SplitLinesOfGlue(lines: seq<string>, ends: seq<string>)
    requires ProperEnds(lines, ends)
    requires forall k :: 0 <= k < |lines| ==> NoBreak(lines[k])
    ensures SplitLines(Glue(lines, ends)) == lines
    decreases |lines|
  {
    if lines != [] {
      var line, end := lines[0], ends[0];
      var rest := Glue(lines[1..], ends[1..]);
      var s := Glue(lines, ends);
      assert s == line + (end + rest);
      LineEndOfLine(line, end + rest);
      if |lines| == 1 {
        assert rest == "";
        if end == "" {
          assert s == line;
        } else {
          EndsAtBoundary(s, line, end, rest);
        }
      } else {
        assert IsBoundary(end);
        var lines', ends' := lines[1..], ends[1..];
        assert ProperEnds(lines', ends') by {
          forall k | 0 <= k < |ends'| ensures ends'[k] == ends[k + 1] && lines'[k] == lines[k + 1] { }
        }
        if end == "\r" && rest != [] {
          assert lines'[0] != "" || ends'[0] != "\n";
          assert rest == lines'[0] + ends'[0] + Glue(lines'[1..], ends'[1..]);
          if lines'[0] == "" {
            assert rest[0] == ends'[0][0];
          } else {
            assert rest[0] == lines'[0][0];
          }
        }
        EndsAtBoundary(s, line, end, rest);
        SplitLinesOfGlue(lines', ends');
        assert lines == [line] + lines';
      }
    }
  }

  /** After a line, a boundary `end` is cut off whole, and splitting resumes after it. */
  lemma EndsAtBoundary(s: string, line: string, end: string, rest: string)
    requires s == line + (end + rest) && NoBreak(line) && IsBoundary(end)
    requires end == "\r" && rest != [] ==> rest[0] != '\n'
    ensures LineEnd(s) == |line| < |s|
    ensures BoundaryLength(s, |line|) == |end|
    ensures s[..|line|] == line && s[|line| + |end|..] == rest
  {
    LineEndOfLine(line, end + rest);
    assert s[|line|..] == end + rest;
    if end != "\r\n" && end[0] == '\r' && rest != [] {
      assert s[|line| + 1] == rest[0];
    }
  }

  lemma {:induction false} LineEndOfLine(line: string, x: string)
    requires NoBreak(line)
    requires x == [] || IsLineBreak(x[0])
    ensures LineEnd(line + x) == |line|
    decreases |line|
  {
    if line != [] {
      assert (line + x)[1..] == line[1..] + x;
      LineEndOfLine(line[1..], x);
    } else {
      assert line + x == x;
    }
  }

  /** A text that does not start with "\n" does not start with an empty line ended by "\n". */
  lemma FirstLineOfBreak(s: string)
    requires s != [] && s[0] != '\n'
    ensures SplitLines(s)[0] != "" || LineEnds(s)[0] != "\n"
  {
    if SplitLines(s)[0] == "" {
      assert LineEnd(s) == 0;
    }
  }

  lemma CutThree(s: string, i: nat, j: nat)
    requires i <= j <= |s|
    ensures s == s[..i] + s[i..j] + s[j..]
  {
    assert s[..j] == s[..i] + s[i..j];
  }

  lemma BoundaryAt(s: string, i: nat)
    requires i < |s| && IsLineBreak(s[i])
    ensures IsBoundary(s[i..i + BoundaryLength(s, i)])
    ensures s[i..i + BoundaryLength(s, i)] == "\r" ==> i + 1 == |s| || s[i + 1] != '\n'
  {
    if BoundaryLength(s, i) == 2 {
      assert s[i..i + 2] == [s[i], s[i + 1]];
    } else {
      assert s[i..i + 1] == [s[i]];
    }
  }

  lemma GlueCons(line: string, end: string, lines: seq<string>, ends: seq<string>)
    requires |lines| == |ends|
    ensures Glue([line] + lines, [end] + ends) == line + end + Glue(lines, ends)
  {
    assert ([line] + lines)[1..] == lines && ([end] + ends)[1..] == ends;
  }

  lemma ProperEndsCons(line: string, end: string, lines: seq<string>, ends: seq<string>)
    requires ProperEnds(lines, ends) && IsBoundary(end)
    requires end == "\r" && lines != [] ==> lines[0] != "" || ends[0] != "\n"
    ensures ProperEnds([line] + lines, [end] + ends)
  {
    var ls, es := [line] + lines, [end] + ends;
    forall k | 0 < k < |es|
      ensures es[k] == ends[k - 1] && ls[k] == lines[k - 1]
    {
    }
  }

  // ---------------------------------------------------------------- lower()

  function LowerChar(c: char): char {
    if 'A' <= c <= 'Z' then (c as int + 32) as char else c
  }

  /** `s.lower()` on the ASCII letters; every other character is kept. */
  function Lower(s: string): (r: string)
    ensures |r| == |s|
  {
    seq(|s|, i requires 0 <= i < |s| => LowerChar(s[i]))
  }

  // ---------------------------------------------------------------- str(int) and int(str)

  function DigitChar(d: nat): (c: char)
    requires d < 10
    ensures IsDigit(c)
  {
    ('0' as int + d) as char
  }

  function NatToString(n: nat): (s: string)
    ensures |s| >= 1
    ensures forall i :: 0 <= i < |s| ==> IsDigit(s[i])
  {
    if n < 10 then [DigitChar(n)] else NatToString(n / 10) + [DigitChar(n % 10)]
  }

  /** `str(n)` for an integer: its decimal digits, after a '-' when negative. */
  function IntToString(n: int): (s: string)
    ensures |s| >= 1
    ensures forall i :: 0 <= i < |s| ==> IsDigit(s[i]) || s[i] == '-'
  {
    if n < 0 then "-" + NatToString(-n) else NatToString(n)
  }

  /** Digits that `int()` accepts: a digit first and last, single underscores between digits. */
  predicate IsDigitGroup(s: string) {
    && |s| > 0
    && IsDigit(s[0])
    && (forall i :: 0 <= i < |s| ==> IsDigit(s[i]) || s[i] == '_')
    && (forall i :: 0 <= i < |s| && s[i] == '_' ==> i + 1 < |s| && IsDigit(s[i + 1]))
  }

  /** The value of a decimal digit string, underscores ignored. */
  function DigitsValue(s: string): nat
    requires forall i :: 0 <= i < |s| ==> IsDigit(s[i]) || s[i] == '_'
  {
    if s == [] then 0
    else if s[|s| - 1] == '_' then DigitsValue(s[..|s| - 1])
    else
      assert IsDigit(s[|s| - 1]);
      10 * DigitsValue(s[..|s| - 1]) + (s[|s| - 1] as int - '0' as int)
  }

  /**
   * `int(s)` for a `str`: surrounding whitespace, an optional sign, then an
   * underscore-grouped decimal literal; anything else raises (`None` here).
   */
  function ParseInt(s: string): (r: Option<int>)
    ensures r.Some? ==> Strip(s) != []
  {
    var t := Strip(s);
    if t == [] then None
    else
      var body := if t[0] == '+' || t[0] == '-' then t[1..] else t;
      if !IsDigitGroup(body) then None
      else if t[0] == '-' then Some(-(DigitsValue(body) as int))
      else Some(DigitsValue(body))
  }

  lemma {:induction false} DigitsValueOfNat(n: nat)
    ensures DigitsValue(NatToString(n)) == n
  {
    var s := NatToString(n);
    if n >= 10 {
      DigitsValueOfNat(n / 10);
      assert s[..|s| - 1] == NatToString(n / 10);
    }
  }

  lemma NatStringIsDigitGroup(n: nat)
    ensures IsDigitGroup(NatToString(n))
  {
  }

  /** `int(str(n)) == n`. */
  lemma ParseIntOfString(n: int)
    ensures ParseInt(IntToString(n)) == Some(n)
  {
    var s := IntToString(n);
    assert NoSpace(s);
    StripTrimmed(s);
    assert Strip(s) == s;
    var m: nat := if n < 0 then -n else n;
    var digits := NatToString(m);
    DigitsValueOfNat(m);
    NatStringIsDigitGroup(m);
    if n < 0 {
      assert s == "-" + digits && s[0] == '-';
      assert s[1..] == digits;
    } else {
      assert s == digits && IsDigit(s[0]);
    }
  }
}
