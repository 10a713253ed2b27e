/**
 * `get_seconds_until_time` (main.py) and its duplicate `seconds_until_time_str`
 * (bot.py): the delay until the next daily run at `H:M`, on whole seconds of
 * the day.
 */
module Scheduling {
  import opened Wrappers
  import opened Text

  const SecondsPerDay := 86400

  /** Why `get_seconds_until_time` raises. */
  datatype TimeError =
    | Malformed   // not two `int()`-able parts around one ':'
    | OutOfRange  // `now.replace` refuses the hour or the minute

  /** A time of day the scheduler accepts. */
  datatype TimeOfDay = TimeOfDay(hour: int, minute: int)
  {
    predicate Valid() {
      0 <= hour < 24 && 0 <= minute < 60
    }

    /** The time as seconds since midnight. */
    function Seconds(): (t: int)
      requires Valid()
      ensures 0 <= t < SecondsPerDay
    {
      hour * 3600 + minute * 60
    }
  }

  /** `hour, minute = [int(x) for x in timestr.strip().split(":")]`, then the range check of `replace`. */
  function ParseTime(timestr: string): (r: Result<TimeOfDay, TimeError>)
    ensures r.Ok? ==> r.value.Valid()
  {
    var parts := SplitOn(Strip(timestr), ':');
    if |parts| != 2 then Err(Malformed)
    else match (ParseInt(parts[0]), ParseInt(parts[1]))
      case (Some(h), Some(m)) =>
        var t := TimeOfDay(h, m);
        if t.Valid() then Ok(t) else Err(OutOfRange)
      case _ => Err(Malformed)
  }

  /**
   * Seconds from `now` (seconds since midnight) to the next `t`: today when
   * `now` is before it, otherwise tomorrow.
   */
  function SecondsUntil(t: TimeOfDay, now: int): (wait: int)
    requires t.Valid() && 0 <= now < SecondsPerDay
    ensures 0 < wait <= SecondsPerDay
    ensures (now + wait) % SecondsPerDay == t.Seconds()
  {
    var target := t.Seconds();
    if now >= target then target - now + SecondsPerDay else target - now
  }

  /** `get_seconds_until_time(timestr)` at `now` seconds past midnight. */
  function GetSecondsUntilTime(timestr: string, now: int): (r: Result<int, TimeError>)
    requires 0 <= now < SecondsPerDay
    ensures r.Ok? <==> ParseTime(timestr).Ok?
    ensures r.Ok? ==> 0 < r.value <= SecondsPerDay
    ensures r.Ok? ==> r.value == SecondsUntil(ParseTime(timestr).value, now)
  {
    match ParseTime(timestr)
    case Err(e) => Err(e)
    case Ok(t) => Ok(SecondsUntil(t, now))
  }

  /** The delay is the first positive one that lands on the target time of day. */
  lemma SecondsUntilIsLeast(t: TimeOfDay, now: int, w: int)
    requires t.Valid() && 0 <= now < SecondsPerDay
    requires 0 < w && (now + w) % SecondsPerDay == t.Seconds()
    ensures SecondsUntil(t, now) <= w
  {
    var wait := SecondsUntil(t, now);
    var q := (now + w) / SecondsPerDay;
    assert now + w == q * SecondsPerDay + t.Seconds();
    assert now + wait == (if now >= t.Seconds() then SecondsPerDay else 0) + t.Seconds();
    if now >= t.Seconds() {
      assert q >= 1;
    }
  }

  /** The setting written as `H:M` (as in the default `'4:00'` of `QUOTE_TIME`). */
  function FormatTime(t: TimeOfDay): string
    requires t.Valid()
  {
    IntToString(t.hour) + ":" + (if t.minute < 10 then "0" else "") + IntToString(t.minute)
  }

  lemma ParseTwoDigits(m: int)
    requires 0 <= m < 10
    ensures ParseInt("0" + IntToString(m)) == Some(m)
  {
    var s := "0" + IntToString(m);
    assert NoSpace(s) && Trimmed(s);
    StripTrimmed(s);
    assert IsDigitGroup(s);
    assert s[..|s| - 1] == "0";
    assert DigitsValue(s[..|s| - 1]) == 0 by {
      assert ("0")[..0] == [];
    }
  }

  /** A string of digits and signs: no whitespace and no ':'. */
  predicate Numeral(s: string) {
    |s| > 0 && forall i :: 0 <= i < |s| ==> IsDigit(s[i]) || s[i] == '-'
  }

  lemma SplitAtColon(h: string, m: string)
    requires Numeral(h) && Numeral(m)
    ensures SplitOn(Strip(h + ":" + m), ':') == [h, m]
  {
    var s := h + ":" + m;
    assert forall i :: 0 <= i < |s| ==> s[i] == ':' || IsDigit(s[i]) || s[i] == '-';
    assert Trimmed(s);
    StripTrimmed(s);
    assert ':' !in h && ':' !in m;
    assert Join([':'], [h, m]) == s;
    SplitOnJoin([h, m], ':');
  }

  lemma ParseTimeOfParts(timestr: string, hs: string, ms: string, t: TimeOfDay)
    requires SplitOn(Strip(timestr), ':') == [hs, ms]
    requires ParseInt(hs) == Some(t.hour) && ParseInt(ms) == Some(t.minute) && t.Valid()
    ensures ParseTime(timestr) == Ok(t)
  {
  }

  /**
   * Whole numbers around a ':' that are not an hour of 0..23 and a minute of
   * 0..59 are refused as out of range (`now.replace` raises `ValueError`).
   */
  lemma ParseTimeOutOfRange(h: int, m: int)
    requires !TimeOfDay(h, m).Valid()
    ensures ParseTime(IntToString(h) + ":" + IntToString(m)) == Err(OutOfRange)
  {
    var hs, ms := IntToString(h), IntToString(m);
    assert Numeral(hs) && Numeral(ms);
    SplitAtColon(hs, ms);
    ParseIntOfString(h);
    ParseIntOfString(m);
  }

  /** A setting without a ':' does not unpack into an hour and a minute. */
  lemma ParseTimeWithoutColon(timestr: string)
    requires ':' !in timestr
    ensures ParseTime(timestr) == Err(Malformed)
  {
    var r := Strip(timestr);
    var k: nat :| Around(timestr, k, r);
    assert ':' !in r by {
      forall j | 0 <= j < |r| ensures r[j] != ':' {
        assert r[j] == timestr[k + j];
      }
    }
    assert IndexOf(r, ':') == |r|;
  }

  /** Every valid time, written out, is read back as itself. */
  lemma ParseFormatTime(t: TimeOfDay)
    requires t.Valid()
    ensures ParseTime(FormatTime(t)) == Ok(t)
  {
    var h := IntToString(t.hour);
    var m := if t.minute < 10 then "0" + IntToString(t.minute) else IntToString(t.minute);
    assert FormatTime(t) == h + ":" + m;
    assert Numeral(m);
    SplitAtColon(h, m);
    ParseIntOfString(t.hour);
    if t.minute < 10 {
      ParseTwoDigits(t.minute);
    } else {
      ParseIntOfString(t.minute);
    }
    ParseTimeOfParts(FormatTime(t), h, m, t);
  }
}
