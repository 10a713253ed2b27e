# Multivitamin: a Dafny model of the bot's core logic

Multivitamin is a Discord bot with three jobs:

- It renames a server every day to a random quote from a "quote channel". It also sets the server icon to a random image from an "icon channel" and posts a card image announcing the change.
- It posts a random music link from a "music channel" as the song of the day.
- It lets server admins configure all of this with `!` commands.

Per-server settings live in a SQLite table `server_config`.

This project models the logic beneath the Discord, SQLite and PIL glue:

- `text.dfy` (module `Text`) holds the parts of Python's `str` the bot relies on, with CPython's semantics:
  - `isspace`, `strip()`, `split()`, `split(sep)`, `splitlines()`;
  - `sep.join`;
  - `int(str)`, written `ParseInt`, and `str(int)`.
- `image_utils.dfy` (module `ImageUtils`) models `image_utils.py`:
  - `is_pure_ascii`, `truncate_to_100_chars`, `can_render_all` and `choose_font`;
  - the text side of `generate_card`: the greedy title wrap, the title layout and `render_meta`.

  A font is the set of characters it has glyphs for. `draw.textlength` is an arbitrary measuring function.
- `db_utils.dfy` (module `DbUtils`) models `db_utils.py`. The table is a `ConfigTable` object holding a `map<int, Row>`. Its methods `GetConfig`, `SetConfig` and `ShowConfig` update it in place. They are specified by the value-level functions `Fetched`, `Inserted`, `Updated` and `Render`.
- `music.dfy` (module `MusicLink`) models `is_music_link`. Its search is proved equal to a declarative reading of the case-insensitive regular expression.
- `selection.dfy` (module `Selection`) models the three samplers `get_random_quote`, `get_random_icon` and `get_random_song`:
  - a history is a sequence of message records, newest first;
  - each collecting loop is proved to build exactly the candidate list its specification function defines;
  - `random.choice` is "some member of the list".
- `scheduling.dfy` (module `Scheduling`) models `get_seconds_until_time` on whole seconds of the day. Its copy in bot.py, `seconds_until_time_str` (bot.py:113-120), is the same code.
- `jobs.dfy` (module `Jobs`) models `process_rename` and `process_daily_song`. They are methods of a `Bot` object that owns:
  - the configuration table;
  - the `is_song_searching` map;
  - logs of the guild renames and channel posts the bot performed.
- `bot_commands.dfy` (module `BotCommands`) models `on_message` in bot.py, the admin command dispatcher.

bot.py is an older, self-contained copy of the same helpers:

- `is_pure_ascii`, `choose_font`, `can_render_all` and `truncate_to_100_chars` (bot.py:88-123);
- `generate_card` (bot.py:126-176);
- the icon and song samplers (bot.py:187-195 and bot.py:241-250);
- `is_music_link` (bot.py:234-239);
- `process_daily_song` (bot.py:252-286).

These are identical to the main.py and image_utils.py versions and share their model. The two copies differ in two places, and the model keeps both:

- bot.py's `get_random_quote` keeps lines that start with `!`; main.py's drops them. This is `QuoteFilter`, and `Selection.SkipIsKeepWithoutCommands` relates the two.
- bot.py's `process_rename` has no override channel. `on_message` calls `Jobs.Bot.ProcessRename` with `None` and `KeepCommands`.

In bot.py the `!song` branch (bot.py:377-382) is not indented under its `elif`, so the file as written does not parse. The model gives it the evidently intended nesting, the same as the `!rename` branch above it.

The SQL `UPDATE` in `set_config` matches no row for a guild that has none yet. `on_message` never calls `get_config` before a `!set…` or `!enablefeature` command. So on a server the bot has not seen before, such a command replies with success and stores nothing. `DbUtils.SetBeforeGetIsLost` states this and `BotCommands.OnMessage` models it as written.

## Model

| member | source | states |
|---|---|---|
| Text.Strip | main.py:23 | The result is a contiguous piece of the input with only whitespace (`str.isspace`) before and after it, and it is empty or starts and ends with a non-whitespace character. It is empty exactly when every character is whitespace. |
| Text.StripJoined | image_utils.py:67 | `f"{line} {word}".strip()`, for a trimmed or empty line and a word, is the word alone when the line is empty, otherwise the line, one space and the word. |
| Text.Words | image_utils.py:65 | Every element of `split()` is a non-empty run without whitespace; which runs, and in what order, is pinned down by the two decomposition lemmas below. |
| Text.WordsEmpty | image_utils.py:65 | `split()` gives the empty list exactly when the string is all whitespace, in both directions. |
| Text.WordsDecompose | image_utils.py:65 | The string is its `split()` words, in order, laid between whitespace runs: the runs between two words are non-empty, the two outer runs may be empty. Nothing but whitespace is dropped. |
| Text.WordsOfInterleave | image_utils.py:65 | Conversely, words laid between such whitespace runs split back into exactly those words, so the decomposition above determines `split()`. |
| Text.SplitLinesGlue | main.py:23 | Each line of `splitlines()` followed by the boundary that ended it rebuilds the string. |
| Text.SplitLinesProper | main.py:23 | Those boundaries are "\r\n" or one line-break character, a "\r" is never directly followed by "\n", and only the last line may end the text without a boundary (and then it is non-empty). |
| Text.SplitLinesOfGlue | main.py:23 | Conversely, lines without line breaks glued with such boundaries split back into exactly those lines, so the two lemmas above determine `splitlines()`. |
| Text.SplitOnCons | db_utils.py:38 | A separator-free head followed by the separator comes off as the first part of the split. |
| Text.SplitOnJoin | db_utils.py:38 | Splitting `'\n'.join(parts)` on the separator returns the parts, when no part holds the separator. |
| Text.JoinSplitOn | main.py:116 | Joining the pieces of `s.split(c)` with `c` restores `s`. |
| Text.ParseIntOfString | main.py:116 | `int(str(n)) == n` for every integer, negative ones included. |
| ImageUtils.PureAsciiIsPrintableAscii | image_utils.py:22-23 | `is_pure_ascii` holds exactly when every character lies in U+0020..U+007E. So the empty text qualifies, and a tab, a newline or any non-ASCII character does not. |
| ImageUtils.LastIndexOf | image_utils.py:48 | The index found holds the character and no later position does. When none is found, the character does not occur. |
| ImageUtils.Truncate100 | image_utils.py:47-48 | Text of at most 100 characters is unchanged. Longer text gives at most 100 characters ending in "...". What precedes "..." is the first 97 characters cut before their last space, or all 97 when they contain no space. |
| ImageUtils.CanRenderAll | image_utils.py:33-45 | True exactly when every non-space character has a glyph. So it is true for empty or all-space text. |
| ImageUtils.FirstCapable | image_utils.py:28-30 | Gives the index of the first loaded font that renders the text, with every earlier font missing or unable; gives the list length when there is none. |
| ImageUtils.ChooseFont | image_utils.py:25-31 | Gives `fonts[0]` for pure-ASCII text when it is loaded. Otherwise gives the first loaded font in list order that renders everything, and `fonts[0]` (possibly missing) when none does. A missing result is always `fonts[0]`. |
| ImageUtils.WrapStart | image_utils.py:65 | Before the first word, the single empty line in progress is a greedy wrap of no words. |
| ImageUtils.WrapFits | image_utils.py:67-70 | When the extended line measures under 300, extending it keeps the greedy-wrap invariant over one more word. |
| ImageUtils.WrapFirstFits | image_utils.py:67-70 | A first word measuring under 300 on its own becomes the first line, which is a greedy wrap of that one word. |
| ImageUtils.LineFitsExtend | image_utils.py:67-70 | Adding a word to a line when the extended line measures under 300 keeps every earlier measurement of the line under 300. |
| ImageUtils.FitsShape | image_utils.py:69-70 | Growing a non-empty line by a word that fits keeps the shape of a greedy wrap: only the first line may be empty, a multi-word line stays under 300, and every earlier line was closed because its next word did not fit. |
| ImageUtils.BreakShape | image_utils.py:71-73 | Closing a line because the next word does not fit, and starting a new line with that word, keeps the same shape. The closed line is the one the word would have overflowed. |
| ImageUtils.JoinExtend | image_utils.py:69-70 | Growing the line in progress by a word keeps the space-joined non-empty lines equal to the space-joined words seen so far. |
| ImageUtils.JoinBreak | image_utils.py:71-73 | Emitting the line and starting a new one with the word keeps the same equality, including when the first line is still empty. |
| ImageUtils.WrapBreaks | image_utils.py:71-73 | When the extended line is too wide, emitting the line and starting a new one with the word keeps the greedy-wrap invariant. |
| ImageUtils.WrapDone | image_utils.py:74 | Appending the last line in progress after all words gives a greedy wrap of `server_name.split()`. |
| ImageUtils.WrapTitle | image_utils.py:65-74 | The wrap loop yields at least one line. Its non-empty lines, space-joined, equal the name's words space-joined. Only the first line may be empty, and it is exactly when there are no words or the first word alone is too wide. Every multi-word line measured under 300, and so did each of its prefixes of two or more words, so no line was broken before the loop would break it. Each line ended only because its next line's first word did not fit. |
| ImageUtils.LayoutTitle | image_utils.py:76-80 | Title line i is drawn at (450, 80 + 40·i), in white, in the font chosen for it. The loop leaves `y_text` at 80 + 40·(number of lines). |
| ImageUtils.RenderMeta | image_utils.py:82-89 | Draws at (450, y) either "label: name", or "label: Unknown" in `meta_fonts[0]`. The colour is (200,200,200) for "Quote by" and (180,180,180) otherwise. |
| ImageUtils.MetaNameShown | image_utils.py:82-87 | A non-ASCII name, or one whose first font is missing, is shown as written exactly when some loaded font renders it. A pure-ASCII name with `fonts[0]` loaded is shown exactly when `fonts[0]` renders it. With no capable font the name becomes "Unknown" in `meta_fonts[0]`. |
| ImageUtils.GenerateCard | image_utils.py:50-100 | A card is produced exactly when the drawing block completes without raising. It carries the greedy wrap of the quote, each line drawn in white at (450, 80 + 40·i) in the font chosen for it, and the two meta lines 10 and 50 pixels below the last step. |
| DbUtils.ColumnIndex | db_utils.py:7-16 | Each settable column sits at a row index 1..7, and indices 6 and 7 are exactly the two feature flags. |
| DbUtils.ColumnIndexInjective | db_utils.py:7-16 | Distinct columns sit at distinct row indices. |
| DbUtils.Row.Set | db_utils.py:30-33 | Writing column c gives c the value and leaves the guild id and every other column as they were. |
| DbUtils.DefaultRow | db_utils.py:7-16 | The inserted row has the guild id, NULL in the five channel columns and 1 in both feature flags. |
| DbUtils.Fetched | db_utils.py:21-28 | `get_config` returns the stored row of an existing guild, else the default row; either way its id is the guild's. |
| DbUtils.Inserted | db_utils.py:24-27 | `get_config` leaves existing rows alone and adds the default row for a new guild, and no other key. |
| DbUtils.Updated | db_utils.py:30-33 | `set_config` keeps the key set and every other guild's row. It sets the one column of an existing guild's row, and leaves the table unchanged when the guild has no row. |
| DbUtils.InsertedKeyed | db_utils.py:21-28 | Inserting keeps every row under its own guild id, and the inserted row is the one returned. |
| DbUtils.UpdatedKeyed | db_utils.py:30-33 | An update keeps every row under its own guild id. |
| DbUtils.GetIdempotent | db_utils.py:23-28 | A second `get_config` changes nothing and returns the same row as the first. |
| DbUtils.SetThenGet | db_utils.py:21-33 | After `set_config` on an existing row, `get_config` reads the written value in that column and the old values in all others. |
| DbUtils.SetBeforeGetIsLost | db_utils.py:30-33 | `set_config` on a guild with no row, then `get_config`, returns the default row: the write is lost. |
| DbUtils.Shown | db_utils.py:38 | A printed value (`'Not Set'` or the integer) holds no newline. |
| DbUtils.LabelsOneLine | db_utils.py:37 | No label holds a newline. |
| DbUtils.Line | db_utils.py:38 | A "Label: value" line built from newline-free parts holds no newline. |
| DbUtils.ShowLines | db_utils.py:37-38 | There are exactly 8 lines, one per label, none holding a newline. |
| DbUtils.ShowLinesInColumnOrder | db_utils.py:37-38 | Line 0 shows the guild id, and the line at each column's row index shows that column under its own label. |
| DbUtils.Render | db_utils.py:38 | Splitting the `show_config` text at newlines gives back exactly the 8 lines. |
| DbUtils.ReadShownOfShown | db_utils.py:38 | A printed value reads back as itself: `'Not Set'` is NULL, and a number is that number. |
| DbUtils.ReadLineOfShown | db_utils.py:38 | A "Label: value" line reads back as its value. |
| DbUtils.ReadConfigOfRender | db_utils.py:35-38 | The `show_config` text reads back as the row it was made from, so the rendering loses nothing. |
| DbUtils.ConfigTable.constructor | db_utils.py:40-42 | The table starts with the given rows, each keyed by its guild id. |
| DbUtils.ConfigTable.GetConfig | db_utils.py:21-28 | Returns `Fetched` of the old table and leaves the table as `Inserted`. |
| DbUtils.ConfigTable.SetConfig | db_utils.py:30-33 | Leaves the table as `Updated` of the old one. |
| DbUtils.ConfigTable.ShowConfig | db_utils.py:35-38 | Returns `Render` of the fetched row and inserts the default row first for a new guild. |
| MusicLink.MatchFromIff | main.py:11-15 | The character-by-character matcher succeeds exactly when every pattern character case-insensitively matches the text from that position. |
| MusicLink.LinkFrom | main.py:11 | Succeeds exactly when `domain/` and one non-whitespace character start at the position. |
| MusicLink.AnyDomainFrom | main.py:11 | Succeeds exactly when one of the remaining domain alternatives has a link at the position. |
| MusicLink.SearchFromIff | main.py:14-15 | The scan from a position succeeds exactly when some domain has a link at that position or later. |
| MusicLink.IsMusicLinkIff | main.py:14-15 | `is_music_link` holds exactly when some position holds one of the four domains, case-insensitively, followed by `/` and a non-whitespace character. |
| MusicLink.MusicLinkAnywhere | main.py:10-15 | The match is unanchored: a domain, `/` and a non-whitespace character anywhere make the line a music link, whatever surrounds them. |
| Selection.GatherMembers | main.py:19-26 | A pick is gathered exactly when some message of the history contributes it. |
| Selection.QuotesOfMembers | main.py:23-26 | The quote picks of a message are exactly its qualifying lines, unstripped, each paired with the author's name. |
| Selection.QuotesOfMessageMembers | main.py:20-26 | A message contributes a quote exactly when its author is not a bot and the line qualifies. |
| Selection.QuoteCandidatesMembers | main.py:17-27 | A quote candidate must come from a non-bot message. It must be a line of that message that is non-blank and, in main.py, not a command. It is paired with the author's display name, and every such line is a candidate. |
| Selection.IconsOfMembers | main.py:34-36 | The icon picks of a message are exactly the URLs of its image attachments, paired with the author's name. |
| Selection.IconsOfMessageMembers | main.py:32-36 | A message contributes an icon exactly when its author is not a bot and the attachment is an image. |
| Selection.IconCandidatesMembers | main.py:29-37 | Icon candidates are exactly the image-attachment URLs of non-bot messages, with their authors. An image has a non-empty content type starting with "image". |
| Selection.SongsOfMembers | main.py:71-74 | The song picks of a message are exactly its stripped lines that are music links, paired with the author's name. |
| Selection.SongsOfMessageMembers | main.py:69-74 | A message contributes a song exactly when its author is not a bot and a stripped line is a music link. |
| Selection.SongCandidatesMembers | main.py:66-75 | Song candidates are exactly the stripped music-link lines of non-bot messages, with their authors. |
| Selection.SongCandidatesAreLinks | main.py:72-74 | Every song candidate is non-empty, already stripped and matches the music-link pattern. |
| Selection.QuotesOfDropCommands | bot.py:183-184 | Per message, main.py's quote lines are bot.py's with the command lines removed, order kept. |
| Selection.SkipIsKeepWithoutCommands | bot.py:178-185 | main.py's quote candidates are bot.py's with the command lines removed, order kept. |
| Selection.CollectQuotes | main.py:17-26 | The nested collecting loop builds exactly `QuoteCandidates` of the history, in order. |
| Selection.CollectIcons | main.py:29-36 | The nested collecting loop builds exactly `IconCandidates` of the history, in order. |
| Selection.CollectSongs | main.py:66-74 | The nested collecting loop builds exactly `SongCandidates` of the history, in order. |
| Selection.Choose | main.py:27 | Nothing is chosen exactly when the list is empty; otherwise the choice is a member of the list. |
| Selection.GetRandomQuote | main.py:17-27 | Gives `(None, None)` exactly when there is no quote candidate; otherwise gives one of them. |
| Selection.GetRandomIcon | main.py:29-37 | Gives `(None, None)` exactly when there is no icon candidate; otherwise gives one of them. |
| Selection.GetRandomSong | main.py:66-75 | Gives `(None, None)` exactly when there is no song candidate; otherwise gives one of them. |
| Scheduling.TimeOfDay.Seconds | main.py:119 | A valid hour and minute give a second of the day in [0, 86400). |
| Scheduling.ParseTime | main.py:116-119 | A parsed time always has hour 0..23 and minute 0..59. |
| Scheduling.ParseTimeOutOfRange | main.py:116-119 | Any two whole numbers around a ':' that are not an hour 0..23 and a minute 0..59 are refused as out of range (`replace` raises), negative numbers included. |
| Scheduling.ParseTimeWithoutColon | main.py:116 | A setting with no ':' does not unpack into an hour and a minute and is refused as malformed. |
| Scheduling.SecondsUntil | main.py:117-122 | The delay lies in (0, 86400] and lands exactly on the target second of the day. |
| Scheduling.SecondsUntilIsLeast | main.py:119-122 | No shorter positive delay lands on the target: the next run is the first occurrence strictly after now. |
| Scheduling.GetSecondsUntilTime | main.py:113-122 | Succeeds exactly when the string parses to a valid time, and then gives the delay `SecondsUntil` that time, which lies in (0, 86400]. |
| Scheduling.SplitAtColon | main.py:116 | `"H:M".strip().split(":")` of two numerals gives the two numerals. |
| Scheduling.ParseTwoDigits | main.py:116 | `int()` reads a zero-padded minute back as itself. |
| Scheduling.ParseTimeOfParts | main.py:116-119 | Two parts that `int()` reads as a valid hour and minute parse to that time. |
| Scheduling.ParseFormatTime | main.py:113-119 | Every valid time written as `H:MM` parses back to itself. |
| Jobs.OrUnknown | main.py:60 | `user or "Unknown"` is never empty and keeps a non-empty user. |
| Jobs.Bot.constructor | main.py:77 | The bot starts with no song search in flight, nothing posted and nothing renamed. |
| Jobs.Bot.ChannelOf | main.py:41-43 | `get_channel` finds the channel exactly when the id is set and the channel exists. |
| Jobs.Bot.ProcessRename | main.py:39-64 | It fetches the config, inserting a default row. A missing quote or icon channel raises. The quote and icon are members of their candidate lists, and missing only when there are none. With no quote or no icon, nothing is renamed or posted. Otherwise the guild is renamed to `Truncate100(quote)` and its icon is set to the sampled image (raising when the guild is gone). The card, made when the drawing completes, is posted to the override channel when given, else to the post channel. The song flags are untouched. |
| Jobs.Bot.RenameAndPost | main.py:53-64 | Once both picks exist and the guild is found: the guild is renamed to the truncated quote and its icon set to the sampled image, a card is drawn exactly when the drawing completes, and it is posted to the target channel. With a card but no target it raises after the rename. |
| Jobs.Bot.ProcessDailySong | main.py:79-111 | With the guild's flag already set, the flags are unchanged and at most the "already running" notice is posted. Otherwise the flag ends false on every way out, and every other guild's flag is untouched. A missing channel posts nothing. The song is a member of the candidates, and missing only when there are none. The post is the "no valid link" notice or the song announcement, unless the send raises. |
| Jobs.SampledSongIsNotMissing | main.py:99-101 | A sampled song is never empty, so `not song` holds only when nothing was sampled. |
| BotCommands.ArgIsRest | bot.py:341-342 | For content starting with a keyword that ends in its only space, `content.split(' ', 1)[1].strip()` is the stripped rest after the keyword. |
| BotCommands.ClassifyIsFirstMatch | bot.py:322-382 | The `startswith` chain picks the first keyword, in source order, that the lowered content starts with. It gives that keyword's command, with the toggle argument after the keyword. |
| BotCommands.FeatureColumn | bot.py:343-356 | A toggle argument names a column exactly when it is "quote" or "song", and that column is a feature flag. |
| BotCommands.OnMessage | bot.py:316-382 | Bots, messages outside a guild and users without manage-guild change nothing. A `!set…channel` command writes the channel id into its own column of the guild's row (if present) and replies. `!enablefeature`/`!disablefeature quote/song` writes 1 or 0 into that flag and replies; any other argument does nothing. `!showconfig` inserts the default row if needed and replies with the rendered row in a code fence. `!setup` replies with the guide. `!rename`/`!song` run their job exactly when flag 6 or 7 is truthy, else reply with the "disabled" warning. Anything else does nothing. |

## Left out

- Discord itself is not modelled: the client, events, intents, `on_ready` and `channel.history`.
  - A channel's history is a fixed sequence of message records, newest first. The bot's own posts are bot-authored, so every sampler skips them.
  - Sends are entries appended to `Bot.outbox`, and `guild.edit` calls are entries appended to `Bot.renames`.
- Jobs.Bot.ProcessRename: the aiohttp download of the icon is assumed to succeed, and the new server icon is recorded as the attachment URL it was downloaded from rather than as bytes. `guild.edit` is assumed to accept the name and icon; Discord's own validation is not modelled.
- Jobs.Bot.ProcessRename: the override channel is a channel object in the source, so the model requires it to be a channel the client sees.
- Jobs.Bot.ProcessDailySong: `sendFails` covers only the sends inside the `try`. The "already running" notice and the replies of `on_message` are assumed to succeed.
- ImageUtils.GenerateCard: the pixel work is not modelled: blur, rounded mask, paste, PNG encoding and loading the fonts from files. Whether the `try` block runs to its end is the parameter `drawingCompletes`; any exception in it (the icon bytes not decoding, a failed font measuring or drawing) is caught and gives no card.
- ImageUtils.CanRenderAll: an exception inside `getmask` is folded into "no glyph", which gives the same `False` result.
- `draw.textlength` is an arbitrary function of font and string.
- Scheduling.GetSecondsUntilTime: the time is whole seconds since midnight. The US/Eastern timezone, daylight-saving changes, microseconds and the float returned by `total_seconds()` are not modelled.
- Text.ParseInt: only ASCII digits are accepted. `int()` also accepts other Unicode decimal digits.
- Text.Lower: only ASCII letters are lowered. No command keyword or feature argument can be reached by lowering a non-ASCII character, except through the Kelvin sign to 'k', which none of them contains.
- The SQLite connection and the SQL text are not modelled. This includes the f-string column name in `set_config`, which `on_message` only ever calls with fixed names.
- The infinite scheduler loops `schedule_rename` and `schedule_daily_song`, with their per-guild iteration, are not modelled.
- Async interleaving is not modelled. The `is_song_searching` guard is a sequential map update, not a concurrency property.
- `print` and logging output are not modelled.
- `random.choice` is modelled only as membership in the candidate list; its distribution is not.
- BotCommands.OnMessage: for `!rename` and `!song` it states which job ran, the configuration effect and that the other job's state is untouched. What the job itself does is the contract of `Jobs.Bot.ProcessRename` or `Jobs.Bot.ProcessDailySong`.
