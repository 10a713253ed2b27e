/**
 * The samplers `get_random_quote`, `get_random_icon` and `get_random_song`.
 * A channel's history is a sequence of message records, newest first as
 * `channel.history(oldest_first=False)` yields it, and `random.choice` is
 * "some member of the candidate list".
 */
module Selection {
  import opened Wrappers
  import opened Text
  import opened MusicLink

  datatype Author = Author(bot: bool, displayName: string)

  datatype Attachment = Attachment(url: string, contentType: Option<string>)

  datatype Message = Message(author: Author, content: string, attachments: seq<Attachment>)

  /** A sampled text (a quote line, an image URL or a link) and who posted it. */
  datatype Pick = Pick(text: string, user: string)

  /**
   * Which quote lines count: main.py drops lines that start with '!' (bot
   * commands); the older sampler in bot.py keeps them.
   */
  datatype QuoteFilter = SkipCommands | KeepCommands

  /** `message.content.strip().splitlines()`. */
  function MessageLines(m: Message): seq<string> {
    SplitLines(Strip(m.content))
  }

  predicate IsCommand(line: string) {
    var t := Strip(line);
    t != [] && t[0] == '!'
  }

  /** Whether a line of a message is a quote candidate. */
  predicate IsQuoteLine(line: string, filter: QuoteFilter) {
    Strip(line) != [] && (filter == KeepCommands || !IsCommand(line))
  }

  // ---------------------------------------------------------------- candidate lists

  /** The quote lines of one message, unstripped, in order. */
  function QuotesOf(lines: seq<string>, user: string, filter: QuoteFilter): seq<Pick> {
    if lines == [] then []
    else
      var last := lines[|lines| - 1];
      QuotesOf(lines[..|lines| - 1], user, filter) + (if IsQuoteLine(last, filter) then [Pick(last, user)] else [])
  }

  /** The candidates one message contributes. */
  function QuotesOfMessage(m: Message, filter: QuoteFilter): seq<Pick> {
    if m.author.bot then [] else QuotesOf(MessageLines(m), m.author.displayName, filter)
  }

  /** The picks of each message of a history, concatenated in history order. */
  function Gather(history: seq<Message>, of: Message -> seq<Pick>): seq<Pick> {
    if history == [] then []
    else Gather(history[..|history| - 1], of) + of(history[|history| - 1])
  }

  lemma {:induction false} GatherMembers(history: seq<Message>, of: Message -> seq<Pick>)
    ensures forall p :: p in Gather(history, of) <==> exists i :: 0 <= i < |history| && p in of(history[i])
    decreases |history|
  {
    if history != [] {
      var front := history[..|history| - 1];
      GatherMembers(front, of);
      assert forall i :: 0 <= i < |front| ==> front[i] == history[i];
    }
  }

  /** All quote candidates of a history, in history order. */
  function QuoteCandidates(history: seq<Message>, filter: QuoteFilter): seq<Pick> {
    Gather(history, m => QuotesOfMessage(m, filter))
  }

  /** An attachment `get_random_icon` accepts: a non-empty content type starting with "image". */
  predicate IsImage(a: Attachment) {
    && a.contentType.Some?
    && a.contentType.value != []
    && |a.contentType.value| >= 5
    && a.contentType.value[..5] == "image"
  }

  function IconsOf(attachments: seq<Attachment>, user: string): seq<Pick> {
    if attachments == [] then []
    else
      var last := attachments[|attachments| - 1];
      IconsOf(attachments[..|attachments| - 1], user) + (if IsImage(last) then [Pick(last.url, user)] else [])
  }

  function IconsOfMessage(m: Message): seq<Pick> {
    if m.author.bot then [] else IconsOf(m.attachments, m.author.displayName)
  }

  /** All icon candidates of a history, in history order. */
  function IconCandidates(history: seq<Message>): seq<Pick> {
    Gather(history, IconsOfMessage)
  }

  /** Whether a line carries a song: non-blank and a music link once stripped. */
  predicate IsSongLine(line: string) {
    Strip(line) != [] && IsMusicLink(Strip(line))
  }

  /** The music links of one message, stripped, in order. */
  function SongsOf(lines: seq<string>, user: string): seq<Pick> {
    if lines == [] then []
    else
      var last := lines[|lines| - 1];
      SongsOf(lines[..|lines| - 1], user) + (if IsSongLine(last) then [Pick(Strip(last), user)] else [])
  }

  function SongsOfMessage(m: Message): seq<Pick> {
    if m.author.bot then [] else SongsOf(MessageLines(m), m.author.displayName)
  }

  /** All song candidates of a history, in history order. */
  function SongCandidates(history: seq<Message>): seq<Pick> {
    Gather(history, SongsOfMessage)
  }

  // ---------------------------------------------------------------- what the candidates are

  lemma {:induction false} QuotesOfMembers(lines: seq<string>, user: string, filter: QuoteFilter)
    ensures forall p :: p in QuotesOf(lines, user, filter) <==>
      p.user == user && p.text in lines && IsQuoteLine(p.text, filter)
    decreases |lines|
  {
    if lines != [] {
      QuotesOfMembers(lines[..|lines| - 1], user, filter);
      assert forall x :: x in lines <==> x in lines[..|lines| - 1] || x == lines[|lines| - 1];
    }
  }

  /** `p` is a quote candidate taken from message `m`. */
  ghost predicate QuoteFrom(m: Message, p: Pick, filter: QuoteFilter) {
    && !m.author.bot
    && p.user == m.author.displayName
    && p.text in MessageLines(m)
    && IsQuoteLine(p.text, filter)
  }

  lemma QuotesOfMessageMembers(m: Message, filter: QuoteFilter)
    ensures forall p :: p in QuotesOfMessage(m, filter) <==> QuoteFrom(m, p, filter)
  {
    QuotesOfMembers(MessageLines(m), m.author.displayName, filter);
  }

  /**
   * A quote candidate is a line of a message from a non-bot author that is not
   * blank (and, for `SkipCommands`, not a command), paired with that author's
   * display name; every such line is a candidate.
   */
  lemma QuoteCandidatesMembers(history: seq<Message>, filter: QuoteFilter)
    ensures forall p :: p in QuoteCandidates(history, filter) <==>
      exists i :: 0 <= i < |history| && QuoteFrom(history[i], p, filter)
  {
    GatherMembers(history, m => QuotesOfMessage(m, filter));
    forall m: Message { QuotesOfMessageMembers(m, filter); }
  }

  lemma {:induction false} IconsOfMembers(attachments: seq<Attachment>, user: string)
    ensures forall p :: p in IconsOf(attachments, user) <==>
      p.user == user && exists a :: a in attachments && IsImage(a) && p.text == a.url
    decreases |attachments|
  {
    if attachments != [] {
      IconsOfMembers(attachments[..|attachments| - 1], user);
      assert forall a :: a in attachments <==>
        a in attachments[..|attachments| - 1] || a == attachments[|attachments| - 1];
    }
  }

  /** `p` is an icon candidate taken from message `m`. */
  ghost predicate IconFrom(m: Message, p: Pick) {
    && !m.author.bot
    && p.user == m.author.displayName
    && exists a :: a in m.attachments && IsImage(a) && p.text == a.url
  }

  lemma IconsOfMessageMembers(m: Message)
    ensures forall p :: p in IconsOfMessage(m) <==> IconFrom(m, p)
  {
    IconsOfMembers(m.attachments, m.author.displayName);
  }

  /**
   * An icon candidate is the URL of an image attachment of a message from a
   * non-bot author, paired with that author's display name; every such URL is
   * a candidate.
   */
  lemma IconCandidatesMembers(history: seq<Message>)
    ensures forall p :: p in IconCandidates(history) <==>
      exists i :: 0 <= i < |history| && IconFrom(history[i], p)
  {
    GatherMembers(history, IconsOfMessage);
    forall m: Message { IconsOfMessageMembers(m); }
  }

  lemma {:induction false} SongsOfMembers(lines: seq<string>, user: string)
    ensures forall p :: p in SongsOf(lines, user) <==>
      p.user == user && exists l :: l in lines && IsSongLine(l) && p.text == Strip(l)
    decreases |lines|
  {
    if lines != [] {
      SongsOfMembers(lines[..|lines| - 1], user);
      assert forall x :: x in lines <==> x in lines[..|lines| - 1] || x == lines[|lines| - 1];
    }
  }

  /** `p` is a song candidate taken from message `m`. */
  ghost predicate SongFrom(m: Message, p: Pick) {
    && !m.author.bot
    && p.user == m.author.displayName
    && exists l :: l in MessageLines(m) && IsSongLine(l) && p.text == Strip(l)
  }

  lemma SongsOfMessageMembers(m: Message)
    ensures forall p :: p in SongsOfMessage(m) <==> SongFrom(m, p)
  {
    SongsOfMembers(MessageLines(m), m.author.displayName);
  }

  /**
   * A song candidate is a stripped line of a message from a non-bot author
   * that is a music link, paired with that author's display name; every such
   * line is a candidate.
   */
  lemma SongCandidatesMembers(history: seq<Message>)
    ensures forall p :: p in SongCandidates(history) <==>
      exists i :: 0 <= i < |history| && SongFrom(history[i], p)
  {
    GatherMembers(history, SongsOfMessage);
    forall m: Message { SongsOfMessageMembers(m); }
  }

  /** Every song candidate is a stripped, non-empty music link. */
  lemma SongCandidatesAreLinks(history: seq<Message>, p: Pick)
    requires p in SongCandidates(history)
    ensures p.text != [] && HasMusicLink(p.text) && Strip(p.text) == p.text
  {
    SongCandidatesMembers(history);
    var i :| 0 <= i < |history| && SongFrom(history[i], p);
    var l :| l in MessageLines(history[i]) && IsSongLine(l) && p.text == Strip(l);
    IsMusicLinkIff(p.text);
    StripTrimmed(p.text);
  }

  // ---------------------------------------------------------------- the two quote samplers

  /** The candidates with the command lines removed, order kept. */
  function DropCommands(picks: seq<Pick>): (r: seq<Pick>)
    ensures |r| <= |picks|
  {
    if picks == [] then []
    else
      var last := picks[|picks| - 1];
      DropCommands(picks[..|picks| - 1]) + (if IsCommand(last.text) then [] else [last])
  }

  lemma {:induction false} DropCommandsAppend(a: seq<Pick>, b: seq<Pick>)
    ensures DropCommands(a + b) == DropCommands(a) + DropCommands(b)
    decreases |b|
  {
    if b == [] {
      assert a + b == a;
    } else {
      assert (a + b)[..|a + b| - 1] == a + b[..|b| - 1];
      DropCommandsAppend(a, b[..|b| - 1]);
    }
  }

  lemma {:induction false} QuotesOfDropCommands(lines: seq<string>, user: string)
    ensures QuotesOf(lines, user, SkipCommands) == DropCommands(QuotesOf(lines, user, KeepCommands))
    decreases |lines|
  {
    if lines != [] {
      var last := lines[|lines| - 1];
      QuotesOfDropCommands(lines[..|lines| - 1], user);
      DropCommandsAppend(QuotesOf(lines[..|lines| - 1], user, KeepCommands),
                         if IsQuoteLine(last, KeepCommands) then [Pick(last, user)] else []);
      if IsQuoteLine(last, KeepCommands) {
        var one := [Pick(last, user)];
        assert DropCommands(one) == DropCommands([]) + (if IsCommand(last) then [] else one) by {
          assert one[..0] == [];
        }
      }
    }
  }

  /**
   * main.py's quote candidates are bot.py's with the command lines taken out,
   * in the same order.
   */
  lemma {:induction false} SkipIsKeepWithoutCommands(history: seq<Message>)
    ensures QuoteCandidates(history, SkipCommands) == DropCommands(QuoteCandidates(history, KeepCommands))
    decreases |history|
  {
    if history != [] {
      var m := history[|history| - 1];
      SkipIsKeepWithoutCommands(history[..|history| - 1]);
      var keepOwn := if m.author.bot then [] else QuotesOf(MessageLines(m), m.author.displayName, KeepCommands);
      DropCommandsAppend(QuoteCandidates(history[..|history| - 1], KeepCommands), keepOwn);
      if !m.author.bot {
        QuotesOfDropCommands(MessageLines(m), m.author.displayName);
      }
    }
  }

  // ---------------------------------------------------------------- the collecting loops

  lemma QuoteCandidatesStep(history: seq<Message>, i: nat, filter: QuoteFilter)
    requires i < |history|
    ensures QuoteCandidates(history[..i + 1], filter)
         == QuoteCandidates(history[..i], filter) + QuotesOfMessage(history[i], filter)
  {
    assert history[..i + 1][..i] == history[..i];
  }

  lemma QuotesOfStep(lines: seq<string>, j: nat, user: string, filter: QuoteFilter)
    requires j < |lines|
    ensures QuotesOf(lines[..j + 1], user, filter)
         == QuotesOf(lines[..j], user, filter) + (if IsQuoteLine(lines[j], filter) then [Pick(lines[j], user)] else [])
  {
    assert lines[..j + 1][..j] == lines[..j];
  }

  /** The loop of main.py's `get_random_quote` (with `SkipCommands`) or bot.py's (with `KeepCommands`). */
  method CollectQuotes(history: seq<Message>, filter: QuoteFilter) returns (all: seq<Pick>)
    ensures all == QuoteCandidates(history, filter)
  {
    all := [];
    for i := 0 to |history|
      invariant all == QuoteCandidates(history[..i], filter)
    {
      var m := history[i];
      QuoteCandidatesStep(history, i, filter);
      if !m.author.bot {
        var lines := MessageLines(m);
        var own := [];
        for j := 0 to |lines|
          invariant own == QuotesOf(lines[..j], m.author.displayName, filter)
        {
          QuotesOfStep(lines, j, m.author.displayName, filter);
          if IsQuoteLine(lines[j], filter) {
            own := own + [Pick(lines[j], m.author.displayName)];
          }
        }
        assert lines[..|lines|] == lines;
        all := all + own;
      }
    }
    assert history[..|history|] == history;
  }

  method CollectIcons(history: seq<Message>) returns (all: seq<Pick>)
    ensures all == IconCandidates(history)
  {
    all := [];
    for i := 0 to |history|
      invariant all == IconCandidates(history[..i])
    {
      var m := history[i];
      assert history[..i + 1][..i] == history[..i];
      if !m.author.bot {
        ghost var before := all;
        for j := 0 to |m.attachments|
          invariant all == before + IconsOf(m.attachments[..j], m.author.displayName)
        {
          assert m.attachments[..j + 1][..j] == m.attachments[..j];
          var a := m.attachments[j];
          if IsImage(a) {
            all := all + [Pick(a.url, m.author.displayName)];
          }
        }
        assert m.attachments[..|m.attachments|] == m.attachments;
      }
    }
    assert history[..|history|] == history;
  }

  lemma SongCandidatesStep(history: seq<Message>, i: nat)
    requires i < |history|
    ensures SongCandidates(history[..i + 1]) == SongCandidates(history[..i]) + SongsOfMessage(history[i])
  {
    assert history[..i + 1][..i] == history[..i];
  }

  lemma SongsOfStep(lines: seq<string>, j: nat, user: string)
    requires j < |lines|
    ensures SongsOf(lines[..j + 1], user)
         == SongsOf(lines[..j], user) + (if IsSongLine(lines[j]) then [Pick(Strip(lines[j]), user)] else [])
  {
    assert lines[..j + 1][..j] == lines[..j];
  }

  method CollectSongs(history: seq<Message>) returns (all: seq<Pick>)
    ensures all == SongCandidates(history)
  {
    all := [];
    for i := 0 to |history|
      invariant all == SongCandidates(history[..i])
    {
      var m := history[i];
      SongCandidatesStep(history, i);
      if !m.author.bot {
        var lines := MessageLines(m);
        var own := [];
        for j := 0 to |lines|
          invariant own == SongsOf(lines[..j], m.author.displayName)
        {
          SongsOfStep(lines, j, m.author.displayName);
          var t := Strip(lines[j]);
          if t != [] && IsMusicLink(t) {
            own := own + [Pick(t, m.author.displayName)];
          }
        }
        assert lines[..|lines|] == lines;
        all := all + own;
      }
    }
    assert history[..|history|] == history;
  }

  // ---------------------------------------------------------------- random.choice

  /** `random.choice(all) if all else (None, None)`: some candidate, or none when there are none. */
  method Choose(all: seq<Pick>) returns (pick: Option<Pick>)
    ensures pick.None? <==> all == []
    ensures pick.Some? ==> pick.value in all
  {
    if all == [] {
      pick := None;
    } else {
      assert all[0] in all;
      var p :| p in all;
      pick := Some(p);
    }
  }

  method GetRandomQuote(history: seq<Message>, filter: QuoteFilter) returns (pick: Option<Pick>)
    ensures pick.None? <==> QuoteCandidates(history, filter) == []
    ensures pick.Some? ==> pick.value in QuoteCandidates(history, filter)
  {
    var all := CollectQuotes(history, filter);
    pick := Choose(all);
  }

  method GetRandomIcon(history: seq<Message>) returns (pick: Option<Pick>)
    ensures pick.None? <==> IconCandidates(history) == []
    ensures pick.Some? ==> pick.value in IconCandidates(history)
  {
    var all := CollectIcons(history);
    pick := Choose(all);
  }

  method GetRandomSong(history: seq<Message>) returns (pick: Option<Pick>)
    ensures pick.None? <==> SongCandidates(history) == []
    ensures pick.Some? ==> pick.value in SongCandidates(history)
  {
    var all := CollectSongs(history);
    pick := Choose(all);
  }
}
