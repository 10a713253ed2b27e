/**
 * `on_message` in bot.py: the admin commands. The lowered content is matched
 * by `startswith` against each command in turn; the first match writes one
 * configuration column, toggles one feature flag, prints the configuration
 * or the setup guide, or runs one job when its feature flag is set.
 */
module BotCommands {
  import opened Wrappers
  import opened Text
  import opened DbUtils
  import opened Selection
  import opened Jobs

  /** The parts of a Discord message `on_message` looks at. */
  datatype Incoming = Incoming(
    authorIsBot: bool,
    guild: Option<int>,      // `message.guild.id`, `None` outside a guild
    manageGuild: bool,       // `message.author.guild_permissions.manage_guild`
    channel: int,            // `message.channel.id`
    content: string)

  /** Only a human with the manage-guild permission, inside a guild, is heard. */
  predicate Admitted(msg: Incoming) {
    !msg.authorIsBot && msg.guild.Some? && msg.manageGuild
  }

  datatype Command =
    | SetChannel(column: Column)
    | Toggle(enable: bool, arg: string)
    | ShowConfigCmd
    | SetupCmd
    | RenameNow
    | SongNow
    | NoCommand

  predicate StartsWith(s: string, prefix: string) {
    |prefix| <= |s| && s[..|prefix|] == prefix
  }

  /** `content.split(' ', 1)[1].strip()`, for a content that has a space. */
  function ArgAfterSpace(content: string): string
    requires ' ' in content
  {
    Strip(content[IndexOf(content, ' ') + 1..])
  }

  /** The command keywords, as `on_message` spells them. */
  const SetQuoteKw := "!setquotechannel"
  const SetIconKw := "!seticonchannel"
  const SetPostKw := "!setpostchannel"
  const SetMusicKw := "!setmusicchannel"
  const SetSongPostKw := "!setsongpostchannel"
  const EnableKw := "!enablefeature "
  const DisableKw := "!disablefeature "
  const ShowConfigKw := "!showconfig"
  const SetupKw := "!setup"
  const RenameKw := "!rename"
  const SongKw := "!song"

  /** The branch chain of `on_message`, on the lowered content. */
  function Classify(content: string): Command {
    if StartsWith(content, SetQuoteKw) then SetChannel(QuoteChannel)
    else if StartsWith(content, SetIconKw) then SetChannel(IconChannel)
    else if StartsWith(content, SetPostKw) then SetChannel(PostChannel)
    else if StartsWith(content, SetMusicKw) then SetChannel(MusicChannel)
    else if StartsWith(content, SetSongPostKw) then SetChannel(SongPostChannel)
    else if StartsWith(content, EnableKw) then
      ToggleKeywords();
      assert content[|EnableKw| - 1] == ' ';
      Toggle(true, ArgAfterSpace(content))
    else if StartsWith(content, DisableKw) then
      ToggleKeywords();
      assert content[|DisableKw| - 1] == ' ';
      Toggle(false, ArgAfterSpace(content))
    else if StartsWith(content, ShowConfigKw) then ShowConfigCmd
    else if StartsWith(content, SetupKw) then SetupCmd
    else if StartsWith(content, RenameKw) then RenameNow
    else if StartsWith(content, SongKw) then SongNow
    else NoCommand
  }

  // ---------------------------------------------------------------- the command table

  /** The number of commands `on_message` tests. */
  const KeywordCount := 11

  /** Command keyword `k`, in the order `on_message` tests them. */
  function Keyword(k: nat): string
    requires k < KeywordCount
  {
    match k
    case 0 => SetQuoteKw
    case 1 => SetIconKw
    case 2 => SetPostKw
    case 3 => SetMusicKw
    case 4 => SetSongPostKw
    case 5 => EnableKw
    case 6 => DisableKw
    case 7 => ShowConfigKw
    case 8 => SetupKw
    case 9 => RenameKw
    case _ => SongKw
  }

  /** The command keyword `k` names, given the content that follows it. */
  function CommandOf(k: nat, rest: string): Command
    requires k < KeywordCount
  {
    match k
    case 0 => SetChannel(QuoteChannel)
    case 1 => SetChannel(IconChannel)
    case 2 => SetChannel(PostChannel)
    case 3 => SetChannel(MusicChannel)
    case 4 => SetChannel(SongPostChannel)
    case 5 => Toggle(true, Strip(rest))
    case 6 => Toggle(false, Strip(rest))
    case 7 => ShowConfigCmd
    case 8 => SetupCmd
    case 9 => RenameNow
    case _ => SongNow
  }

  /** The first keyword from `k` on that the content starts with decides the command. */
  function FirstMatch(content: string, k: nat): Command
    requires k <= KeywordCount
    decreases KeywordCount - k
  {
    if k == KeywordCount then NoCommand
    else if StartsWith(content, Keyword(k)) then CommandOf(k, content[|Keyword(k)|..])
    else FirstMatch(content, k + 1)
  }

  /** Each toggle keyword ends in its only space. */
  lemma ToggleKeywords()
    ensures |EnableKw| > 0 && EnableKw[|EnableKw| - 1] == ' ' && ' ' !in EnableKw[..|EnableKw| - 1]
    ensures |DisableKw| > 0 && DisableKw[|DisableKw| - 1] == ' ' && ' ' !in DisableKw[..|DisableKw| - 1]
  {
  }

  lemma ArgIsRest(content: string, keyword: string)
    requires StartsWith(content, keyword) && |keyword| > 0 && keyword[|keyword| - 1] == ' '
    requires ' ' !in keyword[..|keyword| - 1]
    ensures ' ' in content
    ensures ArgAfterSpace(content) == Strip(content[|keyword|..])
  {
    var n := |keyword| - 1;
    assert content == keyword[..n] + [' '] + content[n + 1..] by {
      assert content[..n + 1] == keyword;
      assert keyword == keyword[..n] + [' '];
    }
    IndexOfAfter(keyword[..n], ' ', content[n + 1..]);
  }

  lemma FirstMatchUnfold(content: string, k: nat)
    requires k < KeywordCount
    ensures FirstMatch(content, k) ==
      if StartsWith(content, Keyword(k)) then CommandOf(k, content[|Keyword(k)|..]) else FirstMatch(content, k + 1)
  {
  }

  lemma FirstMatchEnable(content: string)
    ensures FirstMatch(content, 5) ==
      if StartsWith(content, EnableKw) then Toggle(true, Strip(content[|EnableKw|..])) else FirstMatch(content, 6)
  {
    FirstMatchUnfold(content, 5);
  }

  lemma FirstMatchDisable(content: string)
    ensures FirstMatch(content, 6) ==
      if StartsWith(content, DisableKw) then Toggle(false, Strip(content[|DisableKw|..])) else FirstMatch(content, 7)
  {
    FirstMatchUnfold(content, 6);
  }

  lemma FirstMatchTail(content: string)
    ensures FirstMatch(content, 7) ==
      if StartsWith(content, ShowConfigKw) then ShowConfigCmd
      else if StartsWith(content, SetupKw) then SetupCmd
      else if StartsWith(content, RenameKw) then RenameNow
      else if StartsWith(content, SongKw) then SongNow
      else NoCommand
  {
    assert FirstMatch(content, 10) == if StartsWith(content, SongKw) then SongNow else FirstMatch(content, 11);
    assert FirstMatch(content, 9) == if StartsWith(content, RenameKw) then RenameNow else FirstMatch(content, 10);
    assert FirstMatch(content, 8) == if StartsWith(content, SetupKw) then SetupCmd else FirstMatch(content, 9);
    assert FirstMatch(content, 7) == if StartsWith(content, ShowConfigKw) then ShowConfigCmd else FirstMatch(content, 8);
  }

  lemma FirstMatchHead(content: string)
    ensures FirstMatch(content, 0) ==
      if StartsWith(content, SetQuoteKw) then SetChannel(QuoteChannel)
      else if StartsWith(content, SetIconKw) then SetChannel(IconChannel)
      else if StartsWith(content, SetPostKw) then SetChannel(PostChannel)
      else if StartsWith(content, SetMusicKw) then SetChannel(MusicChannel)
      else if StartsWith(content, SetSongPostKw) then SetChannel(SongPostChannel)
      else FirstMatch(content, 5)
  {
    assert FirstMatch(content, 4) == if StartsWith(content, SetSongPostKw) then SetChannel(SongPostChannel) else FirstMatch(content, 5);
    assert FirstMatch(content, 3) == if StartsWith(content, SetMusicKw) then SetChannel(MusicChannel) else FirstMatch(content, 4);
    assert FirstMatch(content, 2) == if StartsWith(content, SetPostKw) then SetChannel(PostChannel) else FirstMatch(content, 3);
    assert FirstMatch(content, 1) == if StartsWith(content, SetIconKw) then SetChannel(IconChannel) else FirstMatch(content, 2);
    assert FirstMatch(content, 0) == if StartsWith(content, SetQuoteKw) then SetChannel(QuoteChannel) else FirstMatch(content, 1);
  }

  /** `on_message` runs the first command, in source order, that the content starts with. */
  lemma ClassifyIsFirstMatch(content: string)
    ensures Classify(content) == FirstMatch(content, 0)
  {
    FirstMatchHead(content);
    FirstMatchEnable(content);
    FirstMatchDisable(content);
    FirstMatchTail(content);
    ToggleKeywords();
    if StartsWith(content, EnableKw) {
      ArgIsRest(content, EnableKw);
    }
    if StartsWith(content, DisableKw) {
      ArgIsRest(content, DisableKw);
    }
  }

  // ---------------------------------------------------------------- replies

  /** The column `!enablefeature` / `!disablefeature` sets for an argument. */
  function FeatureColumn(arg: string): (c: Option<Column>)
    ensures c.Some? <==> arg == "quote" || arg == "song"
    ensures c.Some? ==> ColumnIndex(c.value) >= 6
  {
    if arg == "quote" then Some(EnableDailyQuote)
    else if arg == "song" then Some(EnableDailySong)
    else None
  }

  function SetReply(c: Column): string {
    "\U{2705} This channel set as "
      + (match c
         case QuoteChannel => "Quote Channel"
         case IconChannel => "Icon Channel"
         case PostChannel => "Post Channel"
         case MusicChannel => "Music Channel"
         case _ => "Song Post Channel")
      + "."
  }

  function ToggleReply(c: Column, enable: bool): string {
    "\U{2705} Daily " + (if c == EnableDailyQuote then "Quote" else "Song") + " feature "
      + (if enable then "enabled." else "disabled.")
  }

  const SetupGuide :=
    "**Bot Setup Guide:**\n"
    + "1. In each channel, use the appropriate setup command:\n"
    + "   - !setquotechannel\n   - !seticonchannel\n   - !setpostchannel\n   - !setmusicchannel\n   - !setsongpostchannel\n"
    + "2. Use !enablefeature [quote|song] or !disablefeature [quote|song] to toggle features.\n"
    + "3. Use !showconfig to see your current config.\n"
    + "4. All scheduled times are EST."

  const QuoteDisabled := "\U{26A0}\U{FE0F} Daily Quote feature is disabled for this server."
  const SongDisabled := "\U{26A0}\U{FE0F} Daily Song feature is disabled for this server."

  /** `"```\n" + text + "\n```"`: the configuration in a code block. */
  function CodeFence(text: string): string {
    "```\n" + text + "\n```"
  }

  /** Python truthiness of a fetched flag: NULL and 0 are false. */
  predicate Truthy(v: Option<int>) {
    v.Some? && v.value != 0
  }

  /** Which job a command ran, with what the job reported. */
  datatype JobRun =
    | NoJob
    | RenameJob(renameOutcome: RenameOutcome)
    | SongJob(songOutcome: SongOutcome)

  // ---------------------------------------------------------------- on_message

  /**
   * `on_message`. `drawingCompletes` and `sendFails` are what the outside world
   * does during a `!rename` or `!song` job (see `Bot.ProcessRename` and
   * `Bot.ProcessDailySong`).
   */
  method OnMessage(bot: Bot, msg: Incoming, drawingCompletes: bool, sendFails: bool) returns (job: JobRun)
    requires bot.Valid()
    modifies bot, bot.config
    ensures bot.Valid()
    ensures !Admitted(msg) ==>
      job == NoJob && unchanged(bot) && bot.config.rows == old(bot.config.rows)
    ensures Admitted(msg) ==>
      var gid := msg.guild.value;
      var cmd := Classify(Lower(msg.content));
      var reply := (s: string) => old(bot.outbox) + [Post(msg.channel, Plain(s))];
      && (job.NoJob? ==> bot.searching == old(bot.searching) && bot.renames == old(bot.renames))
      && (cmd.SetChannel? ==>
            job == NoJob
            && bot.config.rows == Updated(old(bot.config.rows), gid, cmd.column, msg.channel)
            && bot.outbox == reply(SetReply(cmd.column)))
      && (cmd.Toggle? ==>
            job == NoJob
            && match FeatureColumn(cmd.arg)
               case Some(c) =>
                 && bot.config.rows == Updated(old(bot.config.rows), gid, c, if cmd.enable then 1 else 0)
                 && bot.outbox == reply(ToggleReply(c, cmd.enable))
               case None =>
                 bot.config.rows == old(bot.config.rows) && bot.outbox == old(bot.outbox))
      && (cmd.ShowConfigCmd? ==>
            job == NoJob
            && bot.config.rows == Inserted(old(bot.config.rows), gid)
            && bot.outbox == reply(CodeFence(Render(Fetched(old(bot.config.rows), gid)))))
      && (cmd.SetupCmd? ==>
            job == NoJob && bot.config.rows == old(bot.config.rows) && bot.outbox == reply(SetupGuide))
      && (cmd.RenameNow? ==>
            bot.config.rows == Inserted(old(bot.config.rows), gid)
            && bot.searching == old(bot.searching)
            && if Truthy(Fetched(old(bot.config.rows), gid).enableDailyQuote) then job.RenameJob?
               else job == NoJob && bot.outbox == reply(QuoteDisabled))
      && (cmd.SongNow? ==>
            bot.config.rows == Inserted(old(bot.config.rows), gid)
            && bot.renames == old(bot.renames)
            && if Truthy(Fetched(old(bot.config.rows), gid).enableDailySong) then job.SongJob?
               else job == NoJob && bot.outbox == reply(SongDisabled))
      && (cmd.NoCommand? ==>
            job == NoJob && bot.config.rows == old(bot.config.rows) && bot.outbox == old(bot.outbox))
  {
    job := NoJob;
    if !Admitted(msg) {
      return;
    }
    var content := Lower(msg.content);
    var gid := msg.guild.value;
    var cmd := Classify(content);
    match cmd
    case SetChannel(c) =>
      bot.config.SetConfig(gid, c, msg.channel);
      bot.outbox := bot.outbox + [Post(msg.channel, Plain(SetReply(c)))];
    case Toggle(enable, arg) =>
      var column := FeatureColumn(arg);
      if column.Some? {
        bot.config.SetConfig(gid, column.value, if enable then 1 else 0);
        bot.outbox := bot.outbox + [Post(msg.channel, Plain(ToggleReply(column.value, enable)))];
      }
    case ShowConfigCmd =>
      var text := bot.config.ShowConfig(gid);
      bot.outbox := bot.outbox + [Post(msg.channel, Plain(CodeFence(text)))];
    case SetupCmd =>
      bot.outbox := bot.outbox + [Post(msg.channel, Plain(SetupGuide))];
    case RenameNow =>
      var row := bot.config.GetConfig(gid);
      if Truthy(row.enableDailyQuote) {
        var outcome, _, _, _ := bot.ProcessRename(gid, None, KeepCommands, drawingCompletes);
        job := RenameJob(outcome);
      } else {
        bot.outbox := bot.outbox + [Post(msg.channel, Plain(QuoteDisabled))];
      }
    case SongNow =>
      var row := bot.config.GetConfig(gid);
      if Truthy(row.enableDailySong) {
        var outcome, _ := bot.ProcessDailySong(gid, sendFails);
        job := SongJob(outcome);
      } else {
        bot.outbox := bot.outbox + [Post(msg.channel, Plain(SongDisabled))];
      }
    case NoCommand =>
  }
}
