/**
 * The per-guild configuration table `server_config` and its three accessors
 * `get_config`, `set_config` and `show_config`.  The SQLite table becomes an
 * in-memory map from guild id to row, held by a `ConfigTable` object whose
 * methods update it in place.
 */
module DbUtils {
  import opened Wrappers
  import opened Text

  // ---------------------------------------------------------------- rows

  /** The columns that `set_config` is called with: every column but the key. */
  datatype Column =
    | QuoteChannel | IconChannel | PostChannel | MusicChannel | SongPostChannel
    | EnableDailyQuote | EnableDailySong

  /** The position of a column in a fetched row (index 0 is `guild_id`). */
  function ColumnIndex(c: Column): (i: nat)
    ensures 1 <= i <= 7
    ensures i >= 6 <==> c.EnableDailyQuote? || c.EnableDailySong?
  {
    match c
    case QuoteChannel => 1
    case IconChannel => 2
    case PostChannel => 3
    case MusicChannel => 4
    case SongPostChannel => 5
    case EnableDailyQuote => 6
    case EnableDailySong => 7
  }

  lemma ColumnIndexInjective(c: Column, d: Column)
    ensures ColumnIndex(c) == ColumnIndex(d) <==> c == d
  {
  }

  /**
   * One row of `server_config`: an `INTEGER` column may hold NULL, written
   * `None` here.
   */
  datatype Row = Row(
    guildId: int,
    quoteChannel: Option<int>,
    iconChannel: Option<int>,
    postChannel: Option<int>,
    musicChannel: Option<int>,
    songPostChannel: Option<int>,
    enableDailyQuote: Option<int>,
    enableDailySong: Option<int>)
  {
    /** The value of column `c`. */
    function Get(c: Column): Option<int> {
      match c
      case QuoteChannel => quoteChannel
      case IconChannel => iconChannel
      case PostChannel => postChannel
      case MusicChannel => musicChannel
      case SongPostChannel => songPostChannel
      case EnableDailyQuote => enableDailyQuote
      case EnableDailySong => enableDailySong
    }

    /** `UPDATE … SET c = v` on this row: column `c` holds `v`, nothing else moves. */
    function Set(c: Column, v: int): (r: Row)
      ensures r.guildId == guildId
      ensures r.Get(c) == Some(v)
      ensures forall d :: d != c ==> r.Get(d) == Get(d)
    {
      match c
      case QuoteChannel => this.(quoteChannel := Some(v))
      case IconChannel => this.(iconChannel := Some(v))
      case PostChannel => this.(postChannel := Some(v))
      case MusicChannel => this.(musicChannel := Some(v))
      case SongPostChannel => this.(songPostChannel := Some(v))
      case EnableDailyQuote => this.(enableDailyQuote := Some(v))
      case EnableDailySong => this.(enableDailySong := Some(v))
    }
  }

  /**
   * The row `INSERT INTO server_config (guild_id) VALUES (g)` creates: the
   * channel columns are NULL and both feature flags take their default 1.
   */
  function DefaultRow(g: int): (r: Row)
    ensures r.guildId == g
    ensures forall c :: r.Get(c) == if ColumnIndex(c) >= 6 then Some(1) else None
  {
    Row(g, None, None, None, None, None, Some(1), Some(1))
  }

  // ---------------------------------------------------------------- the table as a value

  /** Every row is stored under its own `guild_id` (the primary key). */
  ghost predicate Keyed(rows: map<int, Row>) {
    forall g :: g in rows ==> rows[g].guildId == g
  }

  /** The row `get_config(g)` returns. */
  function Fetched(rows: map<int, Row>, g: int): (row: Row)
    requires Keyed(rows)
    ensures row.guildId == g
    ensures g in rows ==> row == rows[g]
    ensures g !in rows ==> row == DefaultRow(g)
  {
    if g in rows then rows[g] else DefaultRow(g)
  }

  /** The table after `get_config(g)`: a default row is inserted for a new guild. */
  function Inserted(rows: map<int, Row>, g: int): (r: map<int, Row>)
    ensures r.Keys == rows.Keys + {g}
    ensures forall h :: h in rows ==> r[h] == rows[h]
    ensures g !in rows ==> r[g] == DefaultRow(g)
  {
    if g in rows then rows else rows[g := DefaultRow(g)]
  }

  /**
   * The table after `set_config(g, c, v)`: `UPDATE … WHERE guild_id = g`
   * changes column `c` of `g`'s row, and matches no row at all when `g` has
   * none.
   */
  function Updated(rows: map<int, Row>, g: int, c: Column, v: int): (r: map<int, Row>)
    ensures r.Keys == rows.Keys
    ensures forall h :: h in rows && h != g ==> r[h] == rows[h]
    ensures g in rows ==> r[g] == rows[g].Set(c, v)
    ensures g !in rows ==> r == rows
  {
    if g in rows then rows[g := rows[g].Set(c, v)] else rows
  }

  lemma InsertedKeyed(rows: map<int, Row>, g: int)
    requires Keyed(rows)
    ensures Keyed(Inserted(rows, g))
    ensures Inserted(rows, g)[g] == Fetched(rows, g)
  {
  }

  lemma UpdatedKeyed(rows: map<int, Row>, g: int, c: Column, v: int)
    requires Keyed(rows)
    ensures Keyed(Updated(rows, g, c, v))
  {
  }

  /** Two consecutive `get_config(g)` calls return the same row, and the second changes nothing. */
  lemma GetIdempotent(rows: map<int, Row>, g: int)
    requires Keyed(rows)
    ensures Keyed(Inserted(rows, g))
    ensures Inserted(Inserted(rows, g), g) == Inserted(rows, g)
    ensures Fetched(Inserted(rows, g), g) == Fetched(rows, g)
  {
  }

  /** After `set_config(g, c, v)` on an existing row, `get_config(g)` reads `v` in column `c`. */
  lemma SetThenGet(rows: map<int, Row>, g: int, c: Column, v: int)
    requires Keyed(rows) && g in rows
    ensures Keyed(Updated(rows, g, c, v))
    ensures Fetched(Updated(rows, g, c, v), g).Get(c) == Some(v)
    ensures forall d :: d != c ==> Fetched(Updated(rows, g, c, v), g).Get(d) == rows[g].Get(d)
  {
  }

  /** `set_config` on a guild without a row, then `get_config`, yields the default row: the write is lost. */
  lemma SetBeforeGetIsLost(rows: map<int, Row>, g: int, c: Column, v: int)
    requires Keyed(rows) && g !in rows
    ensures Keyed(Updated(rows, g, c, v))
    ensures Fetched(Updated(rows, g, c, v), g) == DefaultRow(g)
  {
  }

  // ---------------------------------------------------------------- show_config text

  /** The labels `show_config` prints, in row order. */
  const Labels: seq<string> := [
    "Guild ID", "Quote Channel", "Icon Channel", "Post Channel", "Music Channel",
    "Song Post Channel", "Quote Feature Enabled", "Song Feature Enabled"]

  const NotSet := "Not Set"

  /** A column's value as `show_config` prints it. */
  function Shown(v: Option<int>): (s: string)
    ensures '\n' !in s
  {
    if v.None? then NotSet else IntToString(v.value)
  }

  lemma LabelsOneLine()
    ensures forall k :: 0 <= k < |Labels| ==> '\n' !in Labels[k]
  {
  }

  /** One `"Label: value"` line. */
  function Line(tag: string, value: string): (line: string)
    requires '\n' !in tag && '\n' !in value
    ensures '\n' !in line
  {
    assert forall k :: 0 <= k < |tag + ": " + value| ==>
      (tag + ": " + value)[k] in tag || (tag + ": " + value)[k] in ": " || (tag + ": " + value)[k] in value;
    tag + ": " + value
  }

  /** The eight `"Label: value"` lines, in row order. */
  function ShowLines(row: Row): (lines: seq<string>)
    ensures |lines| == |Labels|
    ensures forall k :: 0 <= k < |lines| ==> '\n' !in lines[k]
  {
    LabelsOneLine();
    var cells := [IntToString(row.guildId), Shown(row.quoteChannel), Shown(row.iconChannel),
                  Shown(row.postChannel), Shown(row.musicChannel), Shown(row.songPostChannel),
                  Shown(row.enableDailyQuote), Shown(row.enableDailySong)];
    assert forall k :: 0 <= k < |cells| ==> '\n' !in cells[k];
    seq(8, k requires 0 <= k < 8 => Line(Labels[k], cells[k]))
  }

  /** Line 0 shows the guild id; the line at each column's index shows that column. */
  lemma ShowLinesInColumnOrder(row: Row)
    ensures ShowLines(row)[0] == Line(Labels[0], IntToString(row.guildId))
    ensures forall c :: ShowLines(row)[ColumnIndex(c)] == Line(Labels[ColumnIndex(c)], Shown(row.Get(c)))
  {
  }

  /** The text `show_config` returns for a row: its lines joined by newlines. */
  function Render(row: Row): (text: string)
    ensures SplitOn(text, '\n') == ShowLines(row)
  {
    var lines := ShowLines(row);
    SplitOnJoin(lines, '\n');
    Join("\n", lines)
  }

  /** Reads one printed value back: `Not Set` is NULL, anything else must be an integer. */
  function ReadShown(s: string): Option<Option<int>> {
    if s == NotSet then Some(None)
    else match ParseInt(s)
      case None => None
      case Some(n) => Some(Some(n))
  }

  /** Reads the value of a line that must start with `tag + ": "`. */
  function ReadLine(line: string, tag: string): Option<Option<int>> {
    var head := tag + ": ";
    if |head| <= |line| && line[..|head|] == head then ReadShown(line[|head|..]) else None
  }

  /** Reads a `show_config` text back into a row; `None` when it is not one. */
  function ReadConfig(text: string): Option<Row> {
    var lines := SplitOn(text, '\n');
    if |lines| != 8 then None
    else
      var cells := seq(8, k requires 0 <= k < 8 => ReadLine(lines[k], Labels[k]));
      if || cells[0].None? || cells[1].None? || cells[2].None? || cells[3].None?
         || cells[4].None? || cells[5].None? || cells[6].None? || cells[7].None? then None
      else if cells[0].value.None? then None
      else Some(Row(cells[0].value.value, cells[1].value, cells[2].value, cells[3].value,
                    cells[4].value, cells[5].value, cells[6].value, cells[7].value))
  }

  lemma NotSetIsNoInteger()
    ensures ParseInt(NotSet) == None
  {
    assert Trimmed(NotSet);
    StripTrimmed(NotSet);
    assert !IsDigit(NotSet[0]);
  }

  lemma ReadShownOfShown(v: Option<int>)
    ensures ReadShown(Shown(v)) == Some(v)
  {
    if v.Some? {
      ParseIntOfString(v.value);
      var s := IntToString(v.value);
      assert s != NotSet by {
        assert IsDigit(s[0]) || s[0] == '-';
      }
    } else {
      NotSetIsNoInteger();
    }
  }

  lemma ReadLineOfShown(tag: string, v: Option<int>)
    requires '\n' !in tag
    ensures ReadLine(Line(tag, Shown(v)), tag) == Some(v)
  {
    var line := tag + ": " + Shown(v);
    assert line[..|tag + ": "|] == tag + ": ";
    assert line[|tag + ": "|..] == Shown(v);
    ReadShownOfShown(v);
  }

  /** Each of the eight lines of a row reads back as the value it shows. */
  lemma ReadShowLines(row: Row)
    ensures var lines := ShowLines(row);
      && ReadLine(lines[0], Labels[0]) == Some(Some(row.guildId))
      && ReadLine(lines[1], Labels[1]) == Some(row.quoteChannel)
      && ReadLine(lines[2], Labels[2]) == Some(row.iconChannel)
      && ReadLine(lines[3], Labels[3]) == Some(row.postChannel)
      && ReadLine(lines[4], Labels[4]) == Some(row.musicChannel)
      && ReadLine(lines[5], Labels[5]) == Some(row.songPostChannel)
      && ReadLine(lines[6], Labels[6]) == Some(row.enableDailyQuote)
      && ReadLine(lines[7], Labels[7]) == Some(row.enableDailySong)
  {
    LabelsOneLine();
    ReadLineOfShown(Labels[0], Some(row.guildId));
    ReadLineOfShown(Labels[1], row.quoteChannel);
    ReadLineOfShown(Labels[2], row.iconChannel);
    ReadLineOfShown(Labels[3], row.postChannel);
    ReadLineOfShown(Labels[4], row.musicChannel);
    ReadLineOfShown(Labels[5], row.songPostChannel);
    ReadLineOfShown(Labels[6], row.enableDailyQuote);
    ReadLineOfShown(Labels[7], row.enableDailySong);
  }

  /** `show_config` loses nothing: its text reads back as the row it was made from. */
  lemma ReadConfigOfRender(row: Row)
    ensures ReadConfig(Render(row)) == Some(row)
  {
    ReadShowLines(row);
  }

  // ---------------------------------------------------------------- the table object

  /** The `server_config` table, keyed by guild id. */
  class ConfigTable {
    var rows: map<int, Row>

    ghost predicate Valid()
      reads this
    {
      Keyed(rows)
    }

    constructor(existing: map<int, Row>)
      requires Keyed(existing)
      ensures Valid() && rows == existing
    {
      rows := existing;
    }

    /** `get_config`: returns the guild's row, inserting the default row first when it has none. */
    method GetConfig(g: int) returns (row: Row)
      requires Valid()
      modifies this
      ensures Valid()
      ensures row == Fetched(old(rows), g)
      ensures rows == Inserted(old(rows), g)
    {
      if g !in rows {
        rows := rows[g := DefaultRow(g)];
      }
      row := rows[g];
    }

    /** `set_config`: writes `v` into column `c` of the guild's row, if it has one. */
    method SetConfig(g: int, c: Column, v: int)
      requires Valid()
      modifies this
      ensures Valid()
      ensures rows == Updated(old(rows), g, c, v)
    {
      if g in rows {
        rows := rows[g := rows[g].Set(c, v)];
      }
    }

    /** `show_config`: fetches the row through `get_config` and renders it. */
    method ShowConfig(g: int) returns (text: string)
      requires Valid()
      modifies this
      ensures Valid()
      ensures text == Render(Fetched(old(rows), g))
      ensures rows == Inserted(old(rows), g)
    {
      var row := GetConfig(g);
      text := Render(row);
    }
  }
}
