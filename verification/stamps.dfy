/**
 * The three timestamp layouts the scripts read and write, with fixed-width
 * fields only:
 *   `s%Y%j%H%M`   the valid-time token of a catalog dataset name,
 *   `%Y%j%H%M%S`  the `start_date_time` attribute of a channel file,
 *   `%Y%m%d%H%M`  the `valid` and `lastReloadTime` fields of the metadata,
 * and `%Y%m%d%H00`, the hour-bucketed metadata file name.
 */
module Stamps {

  import opened Wrappers
  import opened Calendar
  import opened Text

  /** A datetime from ordinal-date fields, with `strptime`'s range checks and `%j` arithmetic. */
  function FromOrdinalFields(y: int, j: int, h: int, mi: int, sec: int): (r: Result<DateTime>)
    ensures r.Ok? <==> 1 <= y <= 9999 && 1 <= j <= 366 && 0 <= h < 24 && 0 <= mi < 60 && 0 <= sec < 60
                       && !(y == 9999 && j > DaysInYear(y))
    ensures r.Ok? ==> Valid(r.value) && (r.value.hour, r.value.minute, r.value.second) == (h, mi, sec)
    ensures r.Ok? ==> DayNumber(r.value.year, r.value.month, r.value.day) == DaysBeforeYear(y) + j
    ensures r.Err? ==> r.error == ValueError
  {
    if !(1 <= y <= 9999 && 1 <= j <= 366 && 0 <= h < 24 && 0 <= mi < 60 && 0 <= sec < 60) then Err(ValueError)
    else
      match OrdinalDate(y, j)
      case None => Err(ValueError)
      case Some(d) => Ok(DateTime(d.0, d.1, d.2, h, mi, sec))
  }

  /**
   * The characters a case-insensitive Unicode regular expression matches
   * against the literal `s`: `s`, `S` and U+017F LATIN SMALL LETTER LONG S,
   * whose simple case folding is `s`.
   */
  predicate IsLetterS(c: char) {
    c == 's' || c == 'S' || c == '\U{017F}'
  }

  /**
   * `strptime(s, "s%Y%j%H%M")`: the letter `s`, then year, day of year, hour
   * and minute. `strptime` compiles its pattern case-insensitively, so the
   * letter may be any of `IsLetterS`.
   */
  function ParseOrdinalToken(s: string): (r: Result<DateTime>)
    ensures r.Ok? ==> |s| == 12 && IsLetterS(s[0]) && AllDigits(s[1..])
    ensures r.Ok? ==> Valid(r.value) && r.value.second == 0
    ensures r.Err? ==> r.error == ValueError
  {
    if |s| != 12 || !IsLetterS(s[0]) || !AllDigits(s[1..]) then Err(ValueError)
    else FromOrdinalFields(Number(s[1..5]), Number(s[5..8]), Number(s[8..10]), Number(s[10..12]), 0)
  }

  /** `strftime(t, "s%Y%j%H%M")`. */
  function FormatOrdinalToken(t: DateTime): (s: string)
    requires Valid(t)
    ensures |s| == 12
  {
    "s" + Pad4(t.year) + Pad3(DayOfYear(t.year, t.month, t.day)) + Pad2(t.hour) + Pad2(t.minute)
  }

  /** The fields of a formatted token sit at their fixed offsets. */
  lemma OrdinalTokenFields(t: DateTime)
    requires Valid(t)
    ensures var s := FormatOrdinalToken(t);
      && s[0] == 's'
      && s[1..5] == Pad4(t.year)
      && s[5..8] == Pad3(DayOfYear(t.year, t.month, t.day))
      && s[8..10] == Pad2(t.hour)
      && s[10..12] == Pad2(t.minute)
  {
  }

  /** Formatting a whole-minute time as a token and reading it back gives the same time. */
  lemma OrdinalTokenRoundTrip(t: DateTime)
    requires Valid(t) && t.second == 0
    ensures ParseOrdinalToken(FormatOrdinalToken(t)) == Ok(t)
  {
    OrdinalTokenFields(t);
    MonthDayOfDayOfYear(t.year, t.month, t.day);
  }

  /**
   * The leading letter is matched without regard to case: `S` and the long
   * s read exactly as `s`, and no other letter is accepted.
   */
  lemma OrdinalTokenIgnoresCase(s: string, c: char)
    requires |s| > 0 && s[0] == 's'
    ensures c == 'S' || c == '\U{017F}' ==> ParseOrdinalToken([c] + s[1..]) == ParseOrdinalToken(s)
    ensures ParseOrdinalToken([c] + s[1..]).Ok? ==> c == 's' || c == 'S' || c == '\U{017F}'
  {
    var u := [c] + s[1..];
    assert u[1..] == s[1..];
    if |s| == 12 {
      assert u[1..5] == s[1..5] && u[5..8] == s[5..8] && u[8..10] == s[8..10] && u[10..12] == s[10..12];
    }
  }

  /** `strptime(s, "%Y%j%H%M%S")`: year, day of year, hour, minute and second. */
  function ParseStartTime(s: string): (r: Result<DateTime>)
    ensures r.Ok? ==> |s| == 13 && AllDigits(s)
    ensures r.Ok? ==> Valid(r.value)
    ensures r.Err? ==> r.error == ValueError
  {
    if |s| != 13 || !AllDigits(s) then Err(ValueError)
    else FromOrdinalFields(Number(s[..4]), Number(s[4..7]), Number(s[7..9]), Number(s[9..11]), Number(s[11..13]))
  }

  /** `strftime(t, "%Y%j%H%M%S")`, the layout of `start_date_time`. */
  function FormatStartTime(t: DateTime): (s: string)
    requires Valid(t)
    ensures |s| == 13 && AllDigits(s)
  {
    Pad4(t.year) + Pad3(DayOfYear(t.year, t.month, t.day)) + Pad2(t.hour) + Pad2(t.minute) + Pad2(t.second)
  }

  /** Any valid time written as `start_date_time` reads back as itself, seconds included. */
  lemma StartTimeRoundTrip(t: DateTime)
    requires Valid(t)
    ensures ParseStartTime(FormatStartTime(t)) == Ok(t)
  {
    StartTimeFields(t);
    MonthDayOfDayOfYear(t.year, t.month, t.day);
  }

  /** The fields of a formatted `start_date_time` sit at their fixed offsets. */
  lemma StartTimeFields(t: DateTime)
    requires Valid(t)
    ensures var s := FormatStartTime(t);
      && s[..4] == Pad4(t.year)
      && s[4..7] == Pad3(DayOfYear(t.year, t.month, t.day))
      && s[7..9] == Pad2(t.hour)
      && s[9..11] == Pad2(t.minute)
      && s[11..13] == Pad2(t.second)
  {
  }

  /** `strptime(s, "%Y%m%d%H%M")`. */
  function ParseMinuteStamp(s: string): (r: Result<DateTime>)
    ensures r.Ok? ==> |s| == 12 && AllDigits(s)
    ensures r.Ok? ==> Valid(r.value) && r.value.second == 0
    ensures r.Err? ==> r.error == ValueError
  {
    if |s| != 12 || !AllDigits(s) then Err(ValueError)
    else
      var t := DateTime(Number(s[..4]), Number(s[4..6]), Number(s[6..8]), Number(s[8..10]), Number(s[10..12]), 0);
      if Valid(t) then Ok(t) else Err(ValueError)
  }

  /** `strftime(t, "%Y%m%d%H%M")`. */
  function FormatMinuteStamp(t: DateTime): (s: string)
    requires Valid(t)
    ensures |s| == 12 && AllDigits(s)
  {
    Pad4(t.year) + Pad2(t.month) + Pad2(t.day) + Pad2(t.hour) + Pad2(t.minute)
  }

  /** `strftime(t, "%Y%m%d%H00")`: the stamp of the hour that contains `t`. */
  function HourStamp(t: DateTime): (s: string)
    requires Valid(t)
    ensures s == FormatMinuteStamp(TopOfHour(t))
  {
    Pad4(t.year) + Pad2(t.month) + Pad2(t.day) + Pad2(t.hour) + "00"
  }

  /** A two-digit field written back from its value is the field itself. */
  lemma PadNumber2(s: string)
    requires |s| == 2 && AllDigits(s)
    ensures Number(s) < 100 && Pad2(Number(s)) == s
  {
    assert s[..1][..0] == [];
    assert Number(s[..1]) == DigitValue(s[0]);
    assert Number(s) == DigitValue(s[0]) * 10 + DigitValue(s[1]);
    assert s == [s[0], s[1]];
  }

  /** A three-digit field written back from its value is the field itself. */
  lemma PadNumber3(s: string)
    requires |s| == 3 && AllDigits(s)
    ensures Number(s) < 1000 && Pad3(Number(s)) == s
  {
    PadNumber2(s[..2]);
    assert Number(s) == Number(s[..2]) * 10 + DigitValue(s[2]);
    assert s == s[..2] + [s[2]];
  }

  /** A four-digit field written back from its value is the field itself. */
  lemma PadNumber4(s: string)
    requires |s| == 4 && AllDigits(s)
    ensures Number(s) < 10000 && Pad4(Number(s)) == s
  {
    var head, n := s[..3], Number(s);
    PadNumber3(head);
    assert n == Number(head) * 10 + DigitValue(s[3]);
    assert n / 10 == Number(head) && n % 10 == DigitValue(s[3]);
    assert Pad4(n) == Pad3(n / 10) + [DigitChar(n % 10)];
    assert s == head + [s[3]];
  }

  /** Formatting a whole-minute time and reading it back gives the same time. */
  lemma MinuteStampRoundTrip(t: DateTime)
    requires Valid(t) && t.second == 0
    ensures ParseMinuteStamp(FormatMinuteStamp(t)) == Ok(t)
  {
    MinuteStampFields(t);
  }

  /** The fields of a formatted minute stamp sit at their fixed offsets. */
  lemma MinuteStampFields(t: DateTime)
    requires Valid(t)
    ensures var s := FormatMinuteStamp(t);
      && s[..4] == Pad4(t.year)
      && s[4..6] == Pad2(t.month)
      && s[6..8] == Pad2(t.day)
      && s[8..10] == Pad2(t.hour)
      && s[10..12] == Pad2(t.minute)
  {
  }

  /** A stamp that parses is exactly the formatting of the time it parses to. */
  lemma MinuteStampCanonical(s: string)
    requires ParseMinuteStamp(s).Ok?
    ensures FormatMinuteStamp(ParseMinuteStamp(s).value) == s
  {
    PadNumber4(s[..4]);
    PadNumber2(s[4..6]);
    PadNumber2(s[6..8]);
    PadNumber2(s[8..10]);
    PadNumber2(s[10..12]);
    assert s == s[..4] + s[4..6] + s[6..8] + s[8..10] + s[10..12];
  }

  /** Two times share an hour stamp exactly when they share year, month, day and hour. */
  lemma HourStampSameHour(a: DateTime, b: DateTime)
    requires Valid(a) && Valid(b)
    ensures HourStamp(a) == HourStamp(b)
            <==> (a.year, a.month, a.day, a.hour) == (b.year, b.month, b.day, b.hour)
  {
    MinuteStampRoundTrip(a.(minute := 0, second := 0));
    MinuteStampRoundTrip(b.(minute := 0, second := 0));
  }
}
