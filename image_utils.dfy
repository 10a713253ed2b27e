/**
 * The text and layout logic of `image_utils.py`: which characters count as
 * plain ASCII, how a quote is cut to the 100-character server-name limit,
 * which of the loaded fonts draws a string, and how `generate_card` wraps the
 * title and places the text on the 800x450 card. Pixel work (blur, mask,
 * paste, PNG encoding) is not modelled; a font is reduced to the set of
 * characters it draws and text width to a measuring function.
 */
module ImageUtils {
  import opened Wrappers
  import opened Text

  // ---------------------------------------------------------------- is_pure_ascii

  /** `string.ascii_letters`. */
  predicate IsAsciiLetter(c: char) {
    ('a' <= c <= 'z') || ('A' <= c <= 'Z')
  }

  /** `string.punctuation`, the 32 characters !"#$%&'()*+,-./:;<=>?@[\]^_`{|}~ as four code-point ranges. */
  predicate IsAsciiPunctuation(c: char) {
    ('!' <= c <= '/') || (':' <= c <= '@') || ('[' <= c <= '`') || ('{' <= c <= '~')
  }

  /** `is_pure_ascii`: every character is a letter, a digit, a punctuation mark or a space. */
  predicate IsPureAscii(text: string) {
    forall i :: 0 <= i < |text| ==> IsAsciiLetter(text[i]) || IsDigit(text[i]) || IsAsciiPunctuation(text[i]) || text[i] == ' '
  }

  /**
   * The allowed characters are exactly printable ASCII, U+0020 to U+007E: the
   * empty text qualifies; a tab, a newline or any non-ASCII character does not.
   */
  lemma PureAsciiIsPrintableAscii(text: string)
    ensures IsPureAscii(text) <==> forall i :: 0 <= i < |text| ==> ' ' <= text[i] <= '~'
  {
  }

  // ---------------------------------------------------------------- truncate_to_100_chars

  /** Index of the last `c` in `s`, if any. */
  function LastIndexOf(s: string, c: char): (r: Option<nat>)
    ensures r.Some? ==> r.value < |s| && s[r.value] == c && forall j :: r.value < j < |s| ==> s[j] != c
    ensures r.None? ==> forall j :: 0 <= j < |s| ==> s[j] != c
  {
    if s == [] then None
    else if s[|s| - 1] == c then Some(|s| - 1)
    else LastIndexOf(s[..|s| - 1], c)
  }

  /** `s.rsplit(' ', 1)[0]`: what precedes the last space, or all of `s` when it has none. */
  function BeforeLastSpace(s: string): string {
    match LastIndexOf(s, ' ')
    case Some(i) => s[..i]
    case None => s
  }

  /**
   * `truncate_to_100_chars`: text of at most 100 characters is kept; longer text
   * is cut to its first 97 characters, then back to its last space, and "..." is
   * appended.
   */
  function Truncate100(text: string): (r: string)
    ensures |text| <= 100 ==> r == text
    ensures |text| > 100 ==> |r| <= 100 && |r| >= 3 && r[|r| - 3..] == "..."
    ensures |text| > 100 ==>
      var head := r[..|r| - 3];
      && head <= text[..97]
      && (' ' in text[..97] ==> |head| < 97 && text[|head|] == ' ' && ' ' !in text[|head| + 1..97])
      && (' ' !in text[..97] ==> head == text[..97])
  {
    if |text| <= 100 then text
    else
      var head := BeforeLastSpace(text[..97]);
      assert (head + "...")[..|head|] == head;
      head + "..."
  }

  // ---------------------------------------------------------------- fonts

  /**
   * A loaded font, reduced to the characters whose rendered mask has a
   * non-empty bounding box (`font.getmask(c).getbbox()` is truthy).
   */
  datatype Font = Font(name: string, glyphs: set<char>)

  /**
   * The fonts `load_fonts` returns, in order; an entry is missing when its file
   * failed to load. The list always has an entry per font file, so it is never empty.
   */
  type FontList = fonts: seq<Option<Font>> | |fonts| > 0 witness [None]

  /** `can_render_all`: spaces are skipped, every other character must have a glyph. */
  function CanRenderAll(text: string, font: Font): (ok: bool)
    ensures ok <==> forall i :: 0 <= i < |text| && text[i] != ' ' ==> text[i] in font.glyphs
  {
    if text == [] then true
    else if text[0] == ' ' then CanRenderAll(text[1..], font)
    else if text[0] !in font.glyphs then false
    else CanRenderAll(text[1..], font)
  }

  /** Index of the first loaded font that renders all of `text`, or `|fonts|` when none does. */
  function FirstCapable(text: string, fonts: seq<Option<Font>>): (k: nat)
    ensures k <= |fonts|
    ensures k < |fonts| ==> fonts[k].Some? && CanRenderAll(text, fonts[k].value)
    ensures forall j :: 0 <= j < k ==> fonts[j].None? || !CanRenderAll(text, fonts[j].value)
  {
    if fonts == [] then 0
    else if fonts[0].Some? && CanRenderAll(text, fonts[0].value) then 0
    else 1 + FirstCapable(text, fonts[1..])
  }

  /** Some loaded font in `fonts` renders all of `text`. */
  predicate SomeFontRenders(text: string, fonts: seq<Option<Font>>) {
    exists j :: 0 <= j < |fonts| && fonts[j].Some? && CanRenderAll(text, fonts[j].value)
  }

  /**
   * `choose_font`: the first font when the text is plain ASCII and that font
   * loaded; otherwise the first loaded font, in list order, that renders the
   * whole text; otherwise the first font, which may be missing.
   */
  function ChooseFont(text: string, fonts: FontList): (f: Option<Font>)
    ensures IsPureAscii(text) && fonts[0].Some? ==> f == fonts[0]
    ensures !(IsPureAscii(text) && fonts[0].Some?) ==>
      if SomeFontRenders(text, fonts) then
        exists k :: 0 <= k < |fonts| && f == fonts[k] && f.Some? && CanRenderAll(text, f.value)
          && forall j :: 0 <= j < k ==> fonts[j].None? || !CanRenderAll(text, fonts[j].value)
      else f == fonts[0]
    ensures f.None? ==> f == fonts[0]
  {
    if IsPureAscii(text) && fonts[0].Some? then fonts[0]
    else
      var k := FirstCapable(text, fonts);
      if k < |fonts| then fonts[k] else fonts[0]
  }

  // ---------------------------------------------------------------- word wrap

  /** The wrap width of the title, in pixels. */
  const WrapWidth := 300

  /**
   * `draw.textlength(s, font=choose_font(s, ...) or fonts[0])`: the width of a
   * string in the font chosen for it. (`or fonts[0]` never changes the choice,
   * since `ChooseFont` only yields a missing font when that is `fonts[0]`.)
   */
  function WidthIn(fonts: FontList, measure: (Option<Font>, string) -> int): string -> int {
    s => measure(ChooseFont(s, fonts), s)
  }

  /** The non-empty lines, in order. */
  function NonEmpty(lines: seq<string>): (r: seq<string>)
    ensures forall k :: 0 <= k < |r| ==> r[k] != ""
    ensures multiset(r) == multiset(lines)["" := 0]
  {
    if lines == [] then []
    else
      var init, last := lines[..|lines| - 1], lines[|lines| - 1];
      assert lines == init + [last];
      NonEmpty(init) + (if last == "" then [] else [last])
  }

  /**
   * What the greedy wrap of `generate_card` guarantees of its lines:
   *  - there is at least one line;
   *  - the non-empty lines, joined by single spaces, are the words of the name
   *    joined by single spaces;
   *  - only the first line can be empty, and it is exactly when the name has no
   *    words or its first word alone is too wide;
   *  - every line holding a space (two or more words) was measured narrower
   *    than the wrap width, and so was each of its prefixes of two or more
   *    words, since every word joined the line only because the line with it
   *    measured under the wrap width; a single word carries no width bound;
   *  - a line was ended only because adding the next line's first word made
   *    it too wide.
   */
  ghost predicate IsGreedyWrap(name: string, lines: seq<string>, width: string -> int) {
    GreedyWrapOf(Words(name), lines, width)
  }

  /** The properties of `IsGreedyWrap`, for a word list. */
  ghost predicate GreedyWrapOf(words: seq<string>, lines: seq<string>, width: string -> int) {
    JoinsWords(words, lines) && WrapShape(words, lines, width)
  }

  /** The non-empty lines, joined by single spaces, are the words joined by single spaces. */
  ghost predicate JoinsWords(words: seq<string>, lines: seq<string>) {
    Join(" ", NonEmpty(lines)) == Join(" ", words)
  }

  /** Where empty lines may be, which lines carry a width bound, and why each line ended. */
  ghost predicate WrapShape(words: seq<string>, lines: seq<string>, width: string -> int) {
    && |lines| >= 1
    && (forall k :: 1 <= k < |lines| ==> lines[k] != "")
    && (lines[0] == "" <==> words == [] || width(words[0]) >= WrapWidth)
    && (forall k :: 0 <= k < |lines| ==> LineFits(lines[k], width))
    && (forall k :: 0 <= k < |lines| - 1 ==> LineEnded(lines, k, width))
  }

  /**
   * Every test string measured while the line was built fitted: the line
   * itself when it holds two or more words, and each of its prefixes that
   * ends just before a space and holds two or more words.
   */
  ghost predicate LineFits(line: string, width: string -> int) {
    && (' ' in line ==> width(line) < WrapWidth)
    && (forall p :: 0 <= p < |line| && line[p] == ' ' && ' ' in line[..p] ==> width(line[..p]) < WrapWidth)
  }

  /** Adding a word whose test string fits keeps every earlier measurement of the line. */
  lemma LineFitsExtend(line: string, word: string, width: string -> int)
    requires LineFits(line, width) && ' ' !in word
    requires width(line + " " + word) < WrapWidth
    ensures LineFits(line + " " + word, width)
  {
    var s := line + " " + word;
    assert forall p :: |line| < p < |s| ==> s[p] == word[p - |line| - 1];
    forall p | 0 <= p < |s| && s[p] == ' ' && ' ' in s[..p]
      ensures width(s[..p]) < WrapWidth
    {
      if p < |line| {
        assert s[p] == line[p] && s[..p] == line[..p];
      } else if p == |line| {
        assert s[..p] == line;
      }
    }
  }

  /** Line `k` was closed because adding the first word of line `k + 1` made it too wide. */
  ghost predicate LineEnded(lines: seq<string>, k: nat, width: string -> int)
    requires k < |lines| - 1
  {
    width(Strip(lines[k] + " " + FirstWord(lines[k + 1]))) >= WrapWidth
  }

  lemma {:induction false} NonEmptyAppend(lines: seq<string>, x: string)
    ensures NonEmpty(lines + [x]) == NonEmpty(lines) + (if x == "" then [] else [x])
  {
    assert (lines + [x])[..|lines|] == lines;
  }

  lemma WordHasNoBlank(w: string)
    requires IsWord(w)
    ensures ' ' !in w
  {
  }

  /** One step of the join invariant: the current line grows by a word. */
  lemma JoinExtend(done: seq<string>, lines: seq<string>, line: string, w: string)
    requires line != "" && done != []
    requires Join(" ", NonEmpty(lines + [line])) == Join(" ", done)
    ensures Join(" ", NonEmpty(lines + [line + " " + w])) == Join(" ", done + [w])
  {
    var ne := NonEmpty(lines);
    NonEmptyAppend(lines, line);
    NonEmptyAppend(lines, line + " " + w);
    assert NonEmpty(lines + [line]) == ne + [line];
    assert NonEmpty(lines + [line + " " + w]) == ne + [line + " " + w];
    JoinAppend(" ", ne, line);
    JoinAppend(" ", ne, line + " " + w);
    JoinAppend(" ", done, w);
    if ne != [] {
      SpacedAssoc(Join(" ", ne), line, w);
    }
  }

  lemma SpacedAssoc(a: string, b: string, c: string)
    ensures a + " " + (b + " " + c) == a + " " + b + " " + c
  {
  }

  /** One step of the join invariant: the current line is closed and a new one starts with a word. */
  lemma JoinBreak(done: seq<string>, lines: seq<string>, line: string, w: string)
    requires w != ""
    requires done == [] ==> lines == [] && line == ""
    requires done != [] ==> line != ""
    requires Join(" ", NonEmpty(lines + [line])) == Join(" ", done)
    ensures Join(" ", NonEmpty(lines + [line] + [w])) == Join(" ", done + [w])
  {
    NonEmptyAppend(lines + [line], w);
    JoinAppend(" ", NonEmpty(lines + [line]), w);
    JoinAppend(" ", done, w);
    if done != [] {
      NonEmptyAppend(lines, line);
    } else {
      assert lines + [line] == [""];
      assert NonEmpty([""]) == NonEmpty([]) + [];
    }
  }

  /**
   * The state of the wrap loop after its first `i` words, where `cur` is the
   * emitted lines followed by the line in progress: that line is empty before
   * the first word only, and the whole list is already a greedy wrap of the
   * words seen so far.
   */
  ghost predicate WrapInv(words: seq<string>, i: nat, cur: seq<string>, width: string -> int) {
    i <= |words| && InProgress(i, cur) && GreedyWrapOf(words[..i], cur, width)
  }

  /** The line in progress is empty before the first word only, and trimmed after it. */
  ghost predicate InProgress(i: nat, cur: seq<string>) {
    && |cur| >= 1
    && (i == 0 <==> cur[|cur| - 1] == "")
    && (i == 0 ==> cur == [""])
    && (cur[|cur| - 1] == "" || Trimmed(cur[|cur| - 1]))
  }

  /** The next word fits: the line in progress grows. */
  lemma WrapFits(words: seq<string>, i: nat, lines: seq<string>, line: string, width: string -> int)
    requires forall k :: 0 <= k < |words| ==> IsWord(words[k])
    requires WrapInv(words, i, lines + [line], width) && i < |words|
    requires width(Strip(line + " " + words[i])) < WrapWidth
    ensures WrapInv(words, i + 1, lines + [Strip(line + " " + words[i])], width)
  {
    var word, done := words[i], words[..i];
    var cur, line' := lines + [line], Strip(line + " " + word);
    var cur' := lines + [line'];
    assert InProgress(i, cur);
    StripJoined(line, word);
    WordHasNoBlank(word);
    if line == "" {
      assert cur' == [word] && done + [word] == [word];
      WrapFirstFits(word, width);
    } else {
      assert line' == line + " " + word;
      JoinExtend(done, lines, line, word);
      FitsShape(done, lines, line, word, width);
      GreedyWrapOfParts(done + [word], cur', width);
    }
    assert InProgress(i + 1, cur');
    WrapInvNext(words, i, cur', width);
  }

  /** A first word that fits on its own makes the first line. */
  lemma WrapFirstFits(word: string, width: string -> int)
    requires IsWord(word) && width(word) < WrapWidth
    ensures GreedyWrapOf([word], [word], width)
  {
    NonEmptyAppend([], word);
    WordHasNoBlank(word);
    assert LineFits(word, width);
  }

  /** Growing a non-empty line by a word that fits keeps the shape of the wrap. */
  lemma FitsShape(done: seq<string>, lines: seq<string>, line: string, word: string, width: string -> int)
    requires line != "" && IsWord(word) && Trimmed(line)
    requires WrapShape(done, lines + [line], width)
    requires done != []
    requires width(line + " " + word) < WrapWidth
    ensures WrapShape(done + [word], lines + [line + " " + word], width)
  {
    var cur, cur' := lines + [line], lines + [line + " " + word];
    FirstWordExtended(line, word);
    WordHasNoBlank(word);
    assert LineFits(cur[|lines|], width);
    LineFitsExtend(line, word, width);
    assert forall k :: 0 <= k < |lines| ==> cur'[k] == cur[k];
    assert (done + [word])[0] == done[0];
    forall k | 0 <= k < |cur'| - 1
      ensures LineEnded(cur', k, width)
    {
      assert LineEnded(cur, k, width);
      assert cur'[k] == cur[k];
      if k + 1 < |lines| {
        assert cur'[k + 1] == cur[k + 1];
      } else {
        assert cur[k + 1] == line && cur'[k + 1] == line + " " + word;
      }
    }
  }

  /** The next word does not fit: the line in progress is emitted and the word starts a new one. */
  lemma WrapBreaks(words: seq<string>, i: nat, lines: seq<string>, line: string, width: string -> int)
    requires forall k :: 0 <= k < |words| ==> IsWord(words[k])
    requires WrapInv(words, i, lines + [line], width) && i < |words|
    requires width(Strip(line + " " + words[i])) >= WrapWidth
    ensures WrapInv(words, i + 1, lines + [line] + [words[i]], width)
  {
    var word, done := words[i], words[..i];
    var cur' := lines + [line] + [word];
    assert InProgress(i, lines + [line]);
    JoinBreak(done, lines, line, word);
    BreakShape(done, lines, line, word, width);
    GreedyWrapOfParts(done + [word], cur', width);
    assert InProgress(i + 1, cur');
    WrapInvNext(words, i, cur', width);
  }

  lemma GreedyWrapOfParts(words: seq<string>, lines: seq<string>, width: string -> int)
    requires JoinsWords(words, lines) && WrapShape(words, lines, width)
    ensures GreedyWrapOf(words, lines, width)
  {
  }

  /** The invariant over `i + 1` words, from the wrap of the first `i` words and word `i`. */
  lemma WrapInvNext(words: seq<string>, i: nat, cur: seq<string>, width: string -> int)
    requires i < |words| && InProgress(i + 1, cur)
    requires GreedyWrapOf(words[..i] + [words[i]], cur, width)
    ensures WrapInv(words, i + 1, cur, width)
  {
    assert words[..i + 1] == words[..i] + [words[i]];
  }

  /** Closing the line in progress and starting a new one with a word that did not fit keeps the shape of the wrap. */
  lemma BreakShape(done: seq<string>, lines: seq<string>, line: string, word: string, width: string -> int)
    requires IsWord(word)
    requires done == [] ==> lines == [] && line == ""
    requires done != [] ==> line != ""
    requires WrapShape(done, lines + [line], width)
    requires width(Strip(line + " " + word)) >= WrapWidth
    requires line == "" || Trimmed(line)
    ensures WrapShape(done + [word], lines + [line] + [word], width)
  {
    var cur := lines + [line];
    var cur' := cur + [word];
    var done' := done + [word];
    FirstWordOfWord(word);
    WordHasNoBlank(word);
    assert forall k :: 0 <= k < |cur| ==> cur'[k] == cur[k];
    if done == [] {
      StripJoined(line, word);
      assert cur'[0] == "" && done'[0] == word;
    } else {
      assert cur'[0] == cur[0] && done'[0] == done[0];
    }
    forall k | 0 <= k < |cur'| - 1
      ensures LineEnded(cur', k, width)
    {
      if k < |cur| - 1 {
        assert LineEnded(cur, k, width);
        assert cur'[k + 1] == cur[k + 1];
      } else {
        assert cur'[k] == line && cur'[k + 1] == word;
      }
    }
  }

  /**
   * The word-wrap loop of `generate_card`: each word is added to the current
   * line while the result measures under 300 pixels; otherwise the line is
   * emitted and the word starts a new one.
   */
  method WrapTitle(name: string, fonts: FontList, measure: (Option<Font>, string) -> int)
    returns (lines: seq<string>)
    ensures IsGreedyWrap(name, lines, WidthIn(fonts, measure))
  {
    ghost var width := WidthIn(fonts, measure);
    var words := Words(name);
    var line := "";
    lines := [];
    WrapStart(words, width);
    for i := 0 to |words|
      invariant WrapInv(words, i, lines + [line], width)
    {
      var test := Strip(line + " " + words[i]);
      var font := ChooseFont(test, fonts);
      MeasureIsWidth(fonts, measure, test);
      if measure(font, test) < WrapWidth {
        WrapFits(words, i, lines, line, width);
        line := test;
      } else {
        WrapBreaks(words, i, lines, line, width);
        lines := lines + [line];
        line := words[i];
      }
    }
    WrapDone(name, words, lines, line, width);
    lines := lines + [line];
  }

  lemma WrapStart(words: seq<string>, width: string -> int)
    ensures WrapInv(words, 0, [] + [""], width)
  {
    assert NonEmpty([""]) == NonEmpty([]) + [];
  }

  lemma MeasureIsWidth(fonts: FontList, measure: (Option<Font>, string) -> int, s: string)
    ensures WidthIn(fonts, measure)(s) == measure(ChooseFont(s, fonts), s)
  {
  }

  lemma WrapDone(name: string, words: seq<string>, lines: seq<string>, line: string, width: string -> int)
    requires words == Words(name)
    requires WrapInv(words, |words|, lines + [line], width)
    ensures IsGreedyWrap(name, lines + [line], width)
  {
    assert words[..|words|] == words;
  }

  // ---------------------------------------------------------------- layout

  datatype Rgb = Rgb(r: int, g: int, b: int)

  /** One `draw.text((x, y), text, font=font, fill=colour)` call. */
  datatype Draw = Draw(x: int, y: int, text: string, font: Option<Font>, colour: Rgb)

  /** The text drawn on a card: the title lines, then the two credit lines. */
  datatype Card = Card(title: seq<Draw>, quoteBy: Draw, iconBy: Draw)

  /** The strings of a run of draw calls. */
  function Texts(draws: seq<Draw>): (texts: seq<string>)
    ensures |texts| == |draws|
    ensures forall i :: 0 <= i < |draws| ==> texts[i] == draws[i].text
  {
    seq(|draws|, i requires 0 <= i < |draws| => draws[i].text)
  }

  const TextX := 450
  const TitleTop := 80
  const LineHeight := 40

  /** The y coordinate of title line `i`. */
  function TitleY(i: nat): int {
    TitleTop + LineHeight * i
  }

  /**
   * The title drawing loop: line `i` goes at (450, 80 + 40·i) in white, in the
   * font chosen for it; `yEnd` is the `y_text` the loop leaves behind.
   */
  method LayoutTitle(lines: seq<string>, fonts: FontList) returns (draws: seq<Draw>, yEnd: int)
    ensures |draws| == |lines| && Texts(draws) == lines
    ensures yEnd == TitleY(|lines|)
    ensures forall i :: 0 <= i < |lines| ==>
      draws[i] == Draw(TextX, TitleY(i), lines[i], ChooseFont(lines[i], fonts), Rgb(255, 255, 255))
  {
    var yText := TitleTop;
    draws := [];
    for i := 0 to |lines|
      invariant |draws| == i
      invariant yText == TitleY(i)
      invariant forall k :: 0 <= k < i ==>
        draws[k] == Draw(TextX, TitleY(k), lines[k], ChooseFont(lines[k], fonts), Rgb(255, 255, 255))
    {
      draws := draws + [Draw(TextX, yText, lines[i], ChooseFont(lines[i], fonts), Rgb(255, 255, 255))];
      yText := yText + LineHeight;
    }
    yEnd := yText;
  }

  /**
   * `render_meta`: "label: name" at (450, y), in the font chosen for the name;
   * when no font was chosen or the chosen one cannot draw the name, the name
   * becomes "Unknown" and the first meta font is used. "Quote by" is drawn in
   * light grey (200), anything else in a darker grey (180).
   */
  function RenderMeta(caption: string, name: string, y: int, fonts: FontList): (d: Draw)
    ensures d.x == TextX && d.y == y
    ensures d.text == caption + ": " + name || (d.text == caption + ": Unknown" && d.font == fonts[0])
    ensures d.colour == if caption == "Quote by" then Rgb(200, 200, 200) else Rgb(180, 180, 180)
  {
    var font := ChooseFont(name, fonts);
    var shown := font.Some? && CanRenderAll(name, font.value);
    Draw(TextX, y,
         caption + ": " + (if shown then name else "Unknown"),
         if shown then font else fonts[0],
         if caption == "Quote by" then Rgb(200, 200, 200) else Rgb(180, 180, 180))
  }

  /**
   * When the name is shown as written. Unless the name is plain ASCII and the
   * first font loaded, it is shown exactly when some loaded font renders it,
   * in the first such font; a plain-ASCII name is tied to the first font and
   * falls back to "Unknown" when that font lacks one of its glyphs, even if
   * the second font has them all.
   */
  lemma MetaNameShown(caption: string, name: string, y: int, fonts: FontList)
    ensures var d := RenderMeta(caption, name, y, fonts);
      && (!(IsPureAscii(name) && fonts[0].Some?) ==>
            (d.font.Some? && CanRenderAll(name, d.font.value) && d.text == caption + ": " + name
             <==> SomeFontRenders(name, fonts)))
      && (IsPureAscii(name) && fonts[0].Some? ==>
            (d.text == caption + ": " + name || name == "Unknown" <==> CanRenderAll(name, fonts[0].value) || name == "Unknown"))
      && (!SomeFontRenders(name, fonts) ==> d.text == caption + ": Unknown" && d.font == fonts[0])
  {
    var d := RenderMeta(caption, name, y, fonts);
    var font := ChooseFont(name, fonts);
    if font.Some? && CanRenderAll(name, font.value) {
      assert exists j :: 0 <= j < |fonts| && fonts[j] == font;
      var j :| 0 <= j < |fonts| && fonts[j] == font;
      assert fonts[j].Some? && CanRenderAll(name, fonts[j].value);
    }
    if d.text == caption + ": " + name {
      assert name == d.text[|caption| + 2..];
    }
  }

  /**
   * What `generate_card` draws: the title wrapped greedily and laid out line
   * by line, then the two meta lines 10 and 50 pixels below the last line.
   */
  ghost predicate IsCardFor(c: Card, name: string, quoteUser: string, iconUser: string,
                            titleFonts: FontList, metaFonts: FontList,
                            measure: (Option<Font>, string) -> int)
  {
    && IsGreedyWrap(name, Texts(c.title), WidthIn(titleFonts, measure))
    && (forall i :: 0 <= i < |c.title| ==>
          c.title[i] == Draw(TextX, TitleY(i), c.title[i].text, ChooseFont(c.title[i].text, titleFonts), Rgb(255, 255, 255)))
    && c.quoteBy == RenderMeta("Quote by", quoteUser, TitleY(|c.title|) + 10, metaFonts)
    && c.iconBy == RenderMeta("Icon by", iconUser, TitleY(|c.title|) + 50, metaFonts)
  }

  /**
   * `generate_card` with the pixel work left out: wrap the title, draw its
   * lines from y = 80 down in steps of 40, then "Quote by" 10 pixels and
   * "Icon by" 50 pixels below the last step. Any exception inside the
   * drawing block (the icon bytes not decoding as an image, a font failing to
   * measure or draw) is caught and nothing is produced; `drawingCompletes`
   * says whether the block ran to its end.
   */
  method GenerateCard(name: string, quoteUser: string, iconUser: string, drawingCompletes: bool,
                      titleFonts: FontList, metaFonts: FontList,
                      measure: (Option<Font>, string) -> int)
    returns (card: Option<Card>)
    ensures card.Some? <==> drawingCompletes
    ensures card.Some? ==> IsCardFor(card.value, name, quoteUser, iconUser, titleFonts, metaFonts, measure)
  {
    if !drawingCompletes {
      return None;
    }
    var lines := WrapTitle(name, titleFonts, measure);
    var title, yEnd := LayoutTitle(lines, titleFonts);
    card := Some(Card(title,
                      RenderMeta("Quote by", quoteUser, yEnd + 10, metaFonts),
                      RenderMeta("Icon by", iconUser, yEnd + 50, metaFonts)));
  }
}
