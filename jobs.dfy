/**
 * The two daily jobs, `process_rename` and `process_daily_song`, run by a
 * bot object that owns the configuration table, the `is_song_searching`
 * flags and what the bot has done to the outside world (guild renames and
 * channel posts, appended to logs).
 */
module Jobs {
  import opened Wrappers
  import opened Text
  import opened DbUtils
  import opened Selection
  import opened ImageUtils

  /** What a post carries: a text message or the generated card image. */
  datatype Body = Plain(text: string) | Image(card: Card)

  datatype Post = Post(channel: int, body: Body)

  /**
   * One `guild.edit(name=…, icon=…)`: the new server name and the new server
   * icon. The icon is the sampled attachment URL, standing for the bytes
   * downloaded from it.
   */
  datatype Rename = Rename(guild: int, name: string, icon: string)

  datatype RenameOutcome =
    | Renamed          // the guild was renamed (and the card posted when one was made)
    | NoQuoteOrImage   // the early return when either sampler found nothing
    | RenameRaised     // an exception escaped: a channel or the guild is missing

  datatype SongOutcome =
    | SongPosted
    | AlreadySearching  // the guard: another search for this guild is in flight
    | ChannelMissing
    | NoLink
    | SendFailed        // a send inside the `try` raised; the `except` swallowed it

  const AlreadyRunningNotice := "\U{26A0}\U{FE0F} Song search is already running. Please wait for it to finish."
  const NoLinkNotice := "\U{26A0}\U{FE0F} No valid music link found in music channel."

  /** The song announcement: a header naming the poster, then the link on its own line. */
  function SongAnnouncement(song: Pick): string {
    "\U{1F3B5} **Song of the Day** (from " + song.user + "):\n" + song.text
  }

  /** `not x` on a sampled pick: nothing was sampled, or the text is empty. */
  predicate Missing(p: Option<Pick>) {
    p.None? || p.value.text == []
  }

  /** `quote_user or "Unknown"`. */
  function OrUnknown(user: string): (r: string)
    ensures r != []
    ensures user != [] ==> r == user
  {
    if user == [] then "Unknown" else user
  }

  class Bot {
    /** The `server_config` table. */
    const config: ConfigTable
    /** `is_song_searching`: guild id to "a song search is in flight". */
    var searching: map<int, bool>
    /** Every message the bot sent, oldest first. */
    var outbox: seq<Post>
    /** Every guild rename, oldest first. */
    var renames: seq<Rename>
    /** The channels `client.get_channel` finds, with their message histories (newest first). */
    const channels: map<int, seq<Message>>
    /** The guilds `client.get_guild` finds. */
    const guilds: set<int>
    const titleFonts: FontList
    const metaFonts: FontList
    /** `draw.textlength`. */
    const measure: (Option<Font>, string) -> int

    ghost predicate Valid()
      reads this, config
    {
      config.Valid()
    }

    constructor(config: ConfigTable, channels: map<int, seq<Message>>, guilds: set<int>,
                titleFonts: FontList, metaFonts: FontList, measure: (Option<Font>, string) -> int)
      requires config.Valid()
      ensures Valid()
      ensures this.config == config && this.channels == channels && this.guilds == guilds
      ensures this.titleFonts == titleFonts && this.metaFonts == metaFonts && this.measure == measure
      ensures searching == map[] && outbox == [] && renames == []
    {
      this.config := config;
      this.channels := channels;
      this.guilds := guilds;
      this.titleFonts := titleFonts;
      this.metaFonts := metaFonts;
      this.measure := measure;
      searching := map[];
      outbox := [];
      renames := [];
    }

    /** `client.get_channel(id)`: `None` for a NULL id or a channel the client does not see. */
    function ChannelOf(id: Option<int>): (c: Option<int>)
      ensures c.Some? ==> c == id && c.value in channels
      ensures id.Some? && id.value in channels ==> c == id
    {
      if id.Some? && id.value in channels then id else None
    }

    /** `is_song_searching.get(gid, False)`. */
    function Searching(gid: int): bool
      reads this
    {
      gid in searching && searching[gid]
    }

    /**
     * `process_rename`: sample a quote and an icon, rename the guild to the
     * truncated quote, and post the card to `overrideChannel` when given,
     * otherwise to the configured post channel. main.py's version samples with
     * `SkipCommands`; bot.py's has no override and samples with `KeepCommands`.
     * `drawingCompletes` says whether the drawing block of `generate_card` ran
     * without raising (the icon bytes open as an image, the fonts measure and draw).
     */
    method ProcessRename(gid: int, overrideChannel: Option<int>, filter: QuoteFilter, drawingCompletes: bool)
      returns (outcome: RenameOutcome, quote: Option<Pick>, icon: Option<Pick>, card: Option<Card>)
      requires Valid()
      requires overrideChannel.Some? ==> overrideChannel.value in channels
      modifies this, config
      ensures Valid()
      ensures config.rows == Inserted(old(config.rows), gid)
      ensures searching == old(searching)
      ensures
        var row := Fetched(old(config.rows), gid);
        var qc, ic, pc := ChannelOf(row.quoteChannel), ChannelOf(row.iconChannel), ChannelOf(row.postChannel);
        var found := qc.Some? && ic.Some? && !Missing(quote) && !Missing(icon);
        var target := if overrideChannel.Some? then overrideChannel else pc;
        && (qc.Some? ==> (quote.None? <==> QuoteCandidates(channels[qc.value], filter) == []))
        && (quote.Some? ==> qc.Some? && quote.value in QuoteCandidates(channels[qc.value], filter))
        && (qc.Some? && ic.Some? ==> (icon.None? <==> IconCandidates(channels[ic.value]) == []))
        && (icon.Some? ==> ic.Some? && icon.value in IconCandidates(channels[ic.value]))
        && (outcome == NoQuoteOrImage <==> qc.Some? && ic.Some? && !found)
        && (outcome == RenameRaised <==>
              qc.None? || ic.None? || (found && (gid !in guilds || (drawingCompletes && target.None?))))
        && renames == (if found && gid in guilds
                       then old(renames) + [Rename(gid, Truncate100(quote.value.text), icon.value.text)]
                       else old(renames))
        && (card.Some? <==> found && gid in guilds && drawingCompletes)
        && (card.Some? ==>
              IsCardFor(card.value, quote.value.text, OrUnknown(quote.value.user), OrUnknown(icon.value.user),
                        titleFonts, metaFonts, measure))
        && outbox == (if card.Some? && target.Some?
                      then old(outbox) + [Post(target.value, Image(card.value))]
                      else old(outbox))
    {
      quote, icon, card := None, None, None;
      var row := config.GetConfig(gid);
      var qc, ic, pc := ChannelOf(row.quoteChannel), ChannelOf(row.iconChannel), ChannelOf(row.postChannel);
      if qc.None? {
        return RenameRaised, quote, icon, card;
      }
      quote := GetRandomQuote(channels[qc.value], filter);
      if ic.None? {
        return RenameRaised, quote, icon, card;
      }
      icon := GetRandomIcon(channels[ic.value]);
      if Missing(quote) || Missing(icon) {
        return NoQuoteOrImage, quote, icon, card;
      }
      if gid !in guilds {
        return RenameRaised, quote, icon, card;
      }
      var target := if overrideChannel.Some? then overrideChannel else pc;
      outcome, card := RenameAndPost(gid, quote.value, icon.value, drawingCompletes, target);
    }

    /** The tail of a rename once both picks are in hand: rename the guild, draw the card, post it. */
    method RenameAndPost(gid: int, quote: Pick, icon: Pick, drawingCompletes: bool, target: Option<int>)
      returns (outcome: RenameOutcome, card: Option<Card>)
      requires gid in guilds
      modifies this
      ensures searching == old(searching)
      ensures renames == old(renames) + [Rename(gid, Truncate100(quote.text), icon.text)]
      ensures card.Some? <==> drawingCompletes
      ensures card.Some? ==>
                IsCardFor(card.value, quote.text, OrUnknown(quote.user), OrUnknown(icon.user),
                          titleFonts, metaFonts, measure)
      ensures outbox == (if card.Some? && target.Some?
                         then old(outbox) + [Post(target.value, Image(card.value))]
                         else old(outbox))
      ensures outcome == (if card.Some? && target.None? then RenameRaised else Renamed)
    {
      renames := renames + [Rename(gid, Truncate100(quote.text), icon.text)];
      card := GenerateCard(quote.text, OrUnknown(quote.user), OrUnknown(icon.user),
                           drawingCompletes, titleFonts, metaFonts, measure);
      if card.Some? {
        if target.None? {
          return RenameRaised, card;
        }
        outbox := outbox + [Post(target.value, Image(card.value))];
      }
      outcome := Renamed;
    }

    /**
     * `process_daily_song`: unless a search for the guild is already in
     * flight, mark it, sample a music link and announce it, and clear the mark
     * on every way out. `sendFails` says whether the send inside the `try`
     * raises.
     */
    method ProcessDailySong(gid: int, sendFails: bool) returns (outcome: SongOutcome, song: Option<Pick>)
      requires Valid()
      modifies this, config
      ensures Valid()
      ensures config.rows == Inserted(old(config.rows), gid)
      ensures renames == old(renames)
      ensures old(Searching(gid)) ==> outcome == AlreadySearching && searching == old(searching)
      ensures !old(Searching(gid)) ==> searching == old(searching)[gid := false]
      ensures
        var row := Fetched(old(config.rows), gid);
        var mc, pc := ChannelOf(row.musicChannel), ChannelOf(row.songPostChannel);
        && (old(Searching(gid)) ==>
              song.None?
              && outbox == old(outbox) + (if pc.Some? then [Post(pc.value, Plain(AlreadyRunningNotice))] else []))
        && (!old(Searching(gid)) && (mc.None? || pc.None?) ==>
              outcome == ChannelMissing && song.None? && outbox == old(outbox))
        && (!old(Searching(gid)) && mc.Some? && pc.Some? ==>
              && (song.None? <==> SongCandidates(channels[mc.value]) == [])
              && (song.Some? ==> song.value in SongCandidates(channels[mc.value]))
              && outcome == (if sendFails then SendFailed else if Missing(song) then NoLink else SongPosted)
              && outbox == old(outbox) + (if sendFails then []
                                          else if Missing(song) then [Post(pc.value, Plain(NoLinkNotice))]
                                          else [Post(pc.value, Plain(SongAnnouncement(song.value)))]))
    {
      song := None;
      var row := config.GetConfig(gid);
      var mc, pc := ChannelOf(row.musicChannel), ChannelOf(row.songPostChannel);
      if Searching(gid) {
        if pc.Some? {
          outbox := outbox + [Post(pc.value, Plain(AlreadyRunningNotice))];
        }
        return AlreadySearching, song;
      }
      searching := searching[gid := true];
      if mc.None? || pc.None? {
        searching := searching[gid := false];
        return ChannelMissing, song;
      }
      song := GetRandomSong(channels[mc.value]);
      if Missing(song) {
        if sendFails {
          outcome := SendFailed;
        } else {
          outbox := outbox + [Post(pc.value, Plain(NoLinkNotice))];
          outcome := NoLink;
        }
        searching := searching[gid := false];
        return;
      }
      if sendFails {
        outcome := SendFailed;
      } else {
        outbox := outbox + [Post(pc.value, Plain(SongAnnouncement(song.value)))];
        outcome := SongPosted;
      }
      searching := searching[gid := false];
    }
  }

  /** A sampled song is never empty, so the "no link" branch is taken only when nothing was sampled. */
  lemma SampledSongIsNotMissing(history: seq<Message>, song: Option<Pick>)
    requires song.Some? ==> song.value in SongCandidates(history)
    ensures Missing(song) <==> song.None?
  {
    if song.Some? {
      SongCandidatesAreLinks(history, song.value);
    }
  }
}
