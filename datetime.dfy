/**
 * The date and time rules of the event-creation dialog:
 * `datetime.strptime(text, '%Y-%m-%d')` and `datetime.strptime(text, '%H:%M')`, which
 * validate the user's input, and `datetime.combine(date, time).isoformat()`, which renders
 * the timestamps sent to the calendar (`full-date "T" partial-time` of section 5.6 of
 * RFC 3339).
 *
 * `strptime` compiles the format into a regular expression in which every directive is a
 * list of alternatives tried in order, matches it at the start of the text, raises
 * "unconverted data remains" when text is left over, and finally builds the value, which
 * raises for a day its month does not have. All three failures are `ValueError`.
 */
module DateTime {
  import opened Wrappers
  import opened Text

  datatype Date = Date(year: int, month: int, day: int)
  datatype Time = Time(hour: int, minute: int)

  /** The Gregorian leap-year rule of section 5.7 of RFC 3339. */
  predicate IsLeapYear(year: int) {
    year % 4 == 0 && (year % 100 != 0 || year % 400 == 0)
  }

  /** The day-of-month limits of section 5.7 of RFC 3339. */
  function DaysInMonth(year: int, month: int): int
    requires 1 <= month <= 12
  {
    if month == 2 then (if IsLeapYear(year) then 29 else 28)
    else if month == 4 || month == 6 || month == 9 || month == 11 then 30
    else 31
  }

  /** The dates Python's `datetime.date` can hold: years 1 to 9999, a real day of a real month. */
  predicate ValidDate(d: Date) {
    1 <= d.year <= 9999 && 1 <= d.month <= 12 && 1 <= d.day <= DaysInMonth(d.year, d.month)
  }

  predicate ValidTime(t: Time) {
    0 <= t.hour <= 23 && 0 <= t.minute <= 59
  }

  /** Why `strptime` raised `ValueError`. */
  datatype ParseError =
    | FormatMismatch   // the format's regular expression does not match
    | UnconvertedData  // it matches, but text is left over
    | OutOfRange       // the fields name no date (a day the month lacks, or year 0)

  /** A directive matched at the start of the remaining text: its length and its value. */
  datatype Field = Field(length: nat, value: nat)

  /** `%Y`: exactly four digits. */
  function MatchYear(r: string): (f: Option<Field>)
    ensures f.Some? ==> f.value.length == 4 <= |r|
  {
    if |r| >= 4 && AllDigits(r[..4]) then Some(Field(4, DecimalValue(r[..4]))) else None
  }

  /** `%m`: the first of `1[0-2]`, `0[1-9]`, `[1-9]` that matches. */
  function MatchMonth(r: string): (f: Option<Field>)
    ensures f.Some? ==> 1 <= f.value.length <= 2 && f.value.length <= |r|
  {
    if |r| >= 2 && r[0] == '1' && '0' <= r[1] <= '2' then Some(Field(2, 10 + DigitValue(r[1])))
    else if |r| >= 2 && r[0] == '0' && '1' <= r[1] <= '9' then Some(Field(2, DigitValue(r[1])))
    else if |r| >= 1 && '1' <= r[0] <= '9' then Some(Field(1, DigitValue(r[0])))
    else None
  }

  /** `%d`: the first of `3[01]`, `[12]\d`, `0[1-9]`, `[1-9]`, `' '[1-9]` that matches. */
  function MatchDay(r: string): (f: Option<Field>)
    ensures f.Some? ==> 1 <= f.value.length <= 2 && f.value.length <= |r|
  {
    if |r| >= 2 && r[0] == '3' && '0' <= r[1] <= '1' then Some(Field(2, 30 + DigitValue(r[1])))
    else if |r| >= 2 && '1' <= r[0] <= '2' && IsDigit(r[1]) then Some(Field(2, 10 * DigitValue(r[0]) + DigitValue(r[1])))
    else if |r| >= 2 && r[0] == '0' && '1' <= r[1] <= '9' then Some(Field(2, DigitValue(r[1])))
    else if |r| >= 1 && '1' <= r[0] <= '9' then Some(Field(1, DigitValue(r[0])))
    else if |r| >= 2 && r[0] == ' ' && '1' <= r[1] <= '9' then Some(Field(2, DigitValue(r[1])))
    else None
  }

  /** `%H`: the first of `2[0-3]`, `[0-1]\d`, `\d` that matches. */
  function MatchHour(r: string): (f: Option<Field>)
    ensures f.Some? ==> 1 <= f.value.length <= 2 && f.value.length <= |r|
  {
    if |r| >= 2 && r[0] == '2' && '0' <= r[1] <= '3' then Some(Field(2, 20 + DigitValue(r[1])))
    else if |r| >= 2 && '0' <= r[0] <= '1' && IsDigit(r[1]) then Some(Field(2, 10 * DigitValue(r[0]) + DigitValue(r[1])))
    else if |r| >= 1 && IsDigit(r[0]) then Some(Field(1, DigitValue(r[0])))
    else None
  }

  /** `%M`: the first of `[0-5]\d`, `\d` that matches. */
  function MatchMinute(r: string): (f: Option<Field>)
    ensures f.Some? ==> 1 <= f.value.length <= 2 && f.value.length <= |r|
  {
    if |r| >= 2 && '0' <= r[0] <= '5' && IsDigit(r[1]) then Some(Field(2, 10 * DigitValue(r[0]) + DigitValue(r[1])))
    else if |r| >= 1 && IsDigit(r[0]) then Some(Field(1, DigitValue(r[0])))
    else None
  }

  /** `datetime.strptime(s, '%Y-%m-%d').date()` */
  function ParseDate(s: string): (r: Result<Date, ParseError>)
    ensures r.Ok? ==> ValidDate(r.value) && 8 <= |s| <= 10
  {
    match MatchYear(s)
    case None => Err(FormatMismatch)
    case Some(y) =>
      var r := s[4..];
      if r == [] || r[0] != '-' then Err(FormatMismatch)
      else
        match MatchMonth(r[1..])
        case None => Err(FormatMismatch)
        case Some(m) =>
          var r' := r[1 + m.length..];
          if r' == [] || r'[0] != '-' then Err(FormatMismatch)
          else
            match MatchDay(r'[1..])
            case None => Err(FormatMismatch)
            case Some(d) =>
              if d.length < |r'| - 1 then Err(UnconvertedData)
              else
                var date := Date(y.value, m.value, d.value);
                if ValidDate(date) then Ok(date) else Err(OutOfRange)
  }

  /** `datetime.strptime(s, '%H:%M').time()`; every hour and minute the pattern admits is in range. */
  function ParseTime(s: string): (r: Result<Time, ParseError>)
    ensures r.Ok? ==> ValidTime(r.value) && 3 <= |s| <= 5
  {
    match MatchHour(s)
    case None => Err(FormatMismatch)
    case Some(h) =>
      var r := s[h.length..];
      if r == [] || r[0] != ':' then Err(FormatMismatch)
      else
        match MatchMinute(r[1..])
        case None => Err(FormatMismatch)
        case Some(m) =>
          if m.length < |r| - 1 then Err(UnconvertedData)
          else Ok(Time(h.value, m.value))
  }

  // ---------------------------------------------------------------------------------------
  // The texts each field value may be written as: the reference the parsers are proved against.

  /** A month is written with two digits, or, below 10, with one. */
  function MonthTexts(v: int): set<string> {
    if 1 <= v <= 9 then {Pad2(v), [DigitChar(v)]}
    else if 10 <= v <= 12 then {Pad2(v)}
    else {}
  }

  /** A day is written with two digits, or, below 10, with one digit or a space and one digit. */
  function DayTexts(v: int): set<string> {
    if 1 <= v <= 9 then {Pad2(v), [DigitChar(v)], [' ', DigitChar(v)]}
    else if 10 <= v <= 31 then {Pad2(v)}
    else {}
  }

  /** An hour is written with two digits, or, below 10, with one. */
  function HourTexts(v: int): set<string> {
    if 0 <= v <= 9 then {Pad2(v), [DigitChar(v)]}
    else if 10 <= v <= 23 then {Pad2(v)}
    else {}
  }

  /** A minute is written with two digits, or, below 10, with one. */
  function MinuteTexts(v: int): set<string> {
    if 0 <= v <= 9 then {Pad2(v), [DigitChar(v)]}
    else if 10 <= v <= 59 then {Pad2(v)}
    else {}
  }

  /** `s` writes date `d` in the `%Y-%m-%d` layout. */
  predicate SpellsDate(s: string, d: Date) {
    && 0 <= d.year <= 9999
    && exists m, t | m in MonthTexts(d.month) && t in DayTexts(d.day) :: s == Pad4(d.year) + "-" + m + "-" + t
  }

  /** `s` writes time `t` in the `%H:%M` layout. */
  predicate SpellsTime(s: string, t: Time) {
    exists h, m | h in HourTexts(t.hour) && m in MinuteTexts(t.minute) :: s == h + ":" + m
  }

  // ---------------------------------------------------------------------------------------
  // Each directive matches exactly the texts of its field.

  lemma DigitCharOfValue(c: char)
    requires IsDigit(c)
    ensures DigitChar(DigitValue(c)) == c
  {
  }

  /** A month text followed by the `-` of the format is matched whole, with its value. */
  lemma MatchMonthOfText(m: string, rest: string, v: int)
    requires m in MonthTexts(v) && |rest| > 0 && rest[0] == '-'
    ensures MatchMonth(m + rest) == Some(Field(|m|, v))
  {
    var r := m + rest;
    assert r[0] == m[0];
    if |m| == 1 {
      assert r[1] == '-';
    } else {
      assert r[1] == m[1];
    }
  }

  /** What `%m` matches is a text of the month it yields. */
  lemma MonthTextOfMatch(r: string)
    requires MatchMonth(r).Some?
    ensures r[..MatchMonth(r).value.length] in MonthTexts(MatchMonth(r).value.value)
  {
    var f := MatchMonth(r).value;
    if f.length == 2 {
      DigitCharOfValue(r[1]);
      assert r[..2] == [r[0], r[1]];
    } else {
      DigitCharOfValue(r[0]);
      assert r[..1] == [r[0]];
    }
  }

  /** A day text, at the end of the input, is matched whole, with its value. */
  lemma MatchDayOfText(t: string, v: int)
    requires t in DayTexts(v)
    ensures MatchDay(t) == Some(Field(|t|, v))
  {
  }

  /** What `%d` matches is a text of the day it yields. */
  lemma DayTextOfMatch(r: string)
    requires MatchDay(r).Some?
    ensures r[..MatchDay(r).value.length] in DayTexts(MatchDay(r).value.value)
  {
    var f := MatchDay(r).value;
    if f.length == 2 {
      DigitCharOfValue(r[1]);
      if IsDigit(r[0]) {
        DigitCharOfValue(r[0]);
      }
      assert r[..2] == [r[0], r[1]];
    } else {
      DigitCharOfValue(r[0]);
      assert r[..1] == [r[0]];
    }
  }

  /** An hour text followed by the `:` of the format is matched whole, with its value. */
  lemma MatchHourOfText(h: string, rest: string, v: int)
    requires h in HourTexts(v) && |rest| > 0 && rest[0] == ':'
    ensures MatchHour(h + rest) == Some(Field(|h|, v))
  {
    var r := h + rest;
    assert r[0] == h[0];
    if |h| == 1 {
      assert r[1] == ':';
    } else {
      assert r[1] == h[1];
    }
  }

  /** What `%H` matches is a text of the hour it yields. */
  lemma HourTextOfMatch(r: string)
    requires MatchHour(r).Some?
    ensures r[..MatchHour(r).value.length] in HourTexts(MatchHour(r).value.value)
  {
    var f := MatchHour(r).value;
    DigitCharOfValue(r[0]);
    if f.length == 2 {
      DigitCharOfValue(r[1]);
      assert r[..2] == [r[0], r[1]];
    } else {
      assert r[..1] == [r[0]];
    }
  }

  /** A minute text, at the end of the input, is matched whole, with its value. */
  lemma MatchMinuteOfText(m: string, v: int)
    requires m in MinuteTexts(v)
    ensures MatchMinute(m) == Some(Field(|m|, v))
  {
  }

  /** What `%M` matches is a text of the minute it yields. */
  lemma MinuteTextOfMatch(r: string)
    requires MatchMinute(r).Some?
    ensures r[..MatchMinute(r).value.length] in MinuteTexts(MatchMinute(r).value.value)
  {
    var f := MatchMinute(r).value;
    DigitCharOfValue(r[0]);
    if f.length == 2 {
      DigitCharOfValue(r[1]);
      assert r[..2] == [r[0], r[1]];
    } else {
      assert r[..1] == [r[0]];
    }
  }

  // ---------------------------------------------------------------------------------------
  // The validators accept exactly the texts of real dates and times.

  lemma ParseDateSound(s: string)
    requires ParseDate(s).Ok?
    ensures ValidDate(ParseDate(s).value) && SpellsDate(s, ParseDate(s).value)
  {
    var d := ParseDate(s).value;
    var r := s[4..];
    var f := MatchMonth(r[1..]).value;
    var m := r[1..][..f.length];
    var r' := r[1 + f.length..];
    var t := r'[1..];
    Pad4OfValue(s[..4]);
    MonthTextOfMatch(r[1..]);
    DayTextOfMatch(t);
    assert t[..|t|] == t;
    assert s == Pad4(d.year) + "-" + m + "-" + t;
  }

  lemma ParseDateComplete(s: string, d: Date)
    requires ValidDate(d) && SpellsDate(s, d)
    ensures ParseDate(s) == Ok(d)
  {
    var m, t :| m in MonthTexts(d.month) && t in DayTexts(d.day) && s == Pad4(d.year) + "-" + m + "-" + t;
    assert s[..4] == Pad4(d.year);
    assert MatchYear(s) == Some(Field(4, d.year));
    var r := s[4..];
    assert r[0] == '-' && r[1..] == m + ("-" + t);
    MatchMonthOfText(m, "-" + t, d.month);
    var r' := r[1 + |m|..];
    assert r' == "-" + t && r'[1..] == t;
    MatchDayOfText(t, d.day);
  }

  /**
   * The start- and end-date steps accept `s` as `d` exactly when `d` is a real date and `s`
   * writes it as four digits, `-`, a month, `-`, a day, nothing after.
   */
  lemma ParseDateExact(s: string, d: Date)
    ensures ParseDate(s) == Ok(d) <==> ValidDate(d) && SpellsDate(s, d)
  {
    if ParseDate(s) == Ok(d) {
      ParseDateSound(s);
    }
    if ValidDate(d) && SpellsDate(s, d) {
      ParseDateComplete(s, d);
    }
  }

  lemma ParseTimeSound(s: string)
    requires ParseTime(s).Ok?
    ensures ValidTime(ParseTime(s).value) && SpellsTime(s, ParseTime(s).value)
  {
    var f := MatchHour(s).value;
    var h := s[..f.length];
    var r := s[f.length..];
    var m := r[1..];
    HourTextOfMatch(s);
    MinuteTextOfMatch(m);
    assert m[..|m|] == m;
    assert s == h + ":" + m;
  }

  lemma ParseTimeComplete(s: string, t: Time)
    requires SpellsTime(s, t)
    ensures ParseTime(s) == Ok(t)
  {
    var h, m :| h in HourTexts(t.hour) && m in MinuteTexts(t.minute) && s == h + ":" + m;
    assert s == h + (":" + m);
    MatchHourOfText(h, ":" + m, t.hour);
    assert s[|h|..] == ":" + m;
    MatchMinuteOfText(m, t.minute);
  }

  /**
   * The start- and end-time steps accept `s` as `t` exactly when `s` writes `t` as an hour
   * 0..23, `:`, a minute 0..59, nothing after; every accepted time is in range.
   */
  lemma ParseTimeExact(s: string, t: Time)
    ensures ParseTime(s) == Ok(t) <==> SpellsTime(s, t)
    ensures ParseTime(s) == Ok(t) ==> ValidTime(t)
  {
    if ParseTime(s) == Ok(t) {
      ParseTimeSound(s);
    }
    if SpellsTime(s, t) {
      ParseTimeComplete(s, t);
    }
  }

  /** A text of each field in the dialog's layout is a text of the whole date. */
  lemma SpellsDateOf(d: Date, m: string, t: string)
    requires 0 <= d.year <= 9999 && m in MonthTexts(d.month) && t in DayTexts(d.day)
    ensures SpellsDate(Pad4(d.year) + "-" + m + "-" + t, d)
  {
  }

  /** Worked cases of the start- and end-date steps: a leap day only in a leap year. */
  lemma ParseDateLeapDay()
    ensures ParseDate("2024-02-29") == Ok(Date(2024, 2, 29))
  {
    assert "2024-02-29" == Pad4(2024) + "-" + Pad2(2) + "-" + Pad2(29);
    SpellsDateOf(Date(2024, 2, 29), Pad2(2), Pad2(29));
    ParseDateComplete("2024-02-29", Date(2024, 2, 29));
  }

  lemma ParseDateNonLeapDay()
    ensures ParseDate("2023-02-29") == Err(OutOfRange)
  {
  }

  /** Month 13 fails the pattern; year 0 matches it but is no date. */
  lemma ParseDateMonth13()
    ensures ParseDate("2024-13-01") == Err(FormatMismatch)
  {
  }

  lemma ParseDateYearZero()
    ensures ParseDate("0000-01-01") == Err(OutOfRange)
  {
    assert "0000-01-01"[..4] == "0000";
    DecimalValue4("0000");
    DecimalValue2("00");
  }

  /** Text after the day, and the day-first layout, are refused. */
  lemma ParseDateTrailingText()
    ensures ParseDate("2024-10-155") == Err(UnconvertedData)
  {
  }

  lemma ParseDateDayFirst()
    ensures ParseDate("15-10-2024") == Err(FormatMismatch)
  {
  }

  /** One-digit fields are accepted. */
  lemma ParseDateOneDigitFields()
    ensures ParseDate("2024-1-5") == Ok(Date(2024, 1, 5))
  {
    assert "2024-1-5" == Pad4(2024) + "-" + [DigitChar(1)] + "-" + [DigitChar(5)];
    SpellsDateOf(Date(2024, 1, 5), [DigitChar(1)], [DigitChar(5)]);
    ParseDateComplete("2024-1-5", Date(2024, 1, 5));
  }

  /** A day may be padded with a space instead of a zero. */
  lemma ParseDateSpacePaddedDay()
    ensures ParseDate("2024-10- 5") == Ok(Date(2024, 10, 5))
  {
    assert "2024-10- 5" == Pad4(2024) + "-" + Pad2(10) + "-" + [' ', DigitChar(5)];
    SpellsDateOf(Date(2024, 10, 5), Pad2(10), [' ', DigitChar(5)]);
    ParseDateComplete("2024-10- 5", Date(2024, 10, 5));
  }

  /** Worked cases of the start- and end-time steps. */
  lemma ParseTimeCases()
    ensures ParseTime("14:30") == Ok(Time(14, 30))
    ensures ParseTime("9:5") == Ok(Time(9, 5))
    ensures ParseTime("24:00") == Err(FormatMismatch)
    ensures ParseTime("23:60") == Err(UnconvertedData)
  {
  }

  // ---------------------------------------------------------------------------------------
  // Serialisation of the event's timestamps.

  /** `datetime.combine(d, t).isoformat()`: `YYYY-MM-DDTHH:MM:SS` with the seconds always `00`. */
  function IsoFormat(d: Date, t: Time): string
    requires ValidDate(d) && ValidTime(t)
  {
    Pad4(d.year) + "-" + Pad2(d.month) + "-" + Pad2(d.day) + "T" + Pad2(t.hour) + ":" + Pad2(t.minute) + ":" + Pad2(0)
  }

  /** A timestamp in the `full-date "T" partial-time` form of section 5.6 of RFC 3339. */
  datatype Stamp = Stamp(date: Date, time: Time, second: int)

  /** The value limits of section 5.7 of RFC 3339; a second of 60 is a leap second. */
  predicate ValidStamp(st: Stamp) {
    && 0 <= st.date.year <= 9999
    && 1 <= st.date.month <= 12
    && 1 <= st.date.day <= DaysInMonth(st.date.year, st.date.month)
    && ValidTime(st.time)
    && 0 <= st.second <= 60
  }

  /** Reads `YYYY-MM-DDTHH:MM:SS` (RFC 3339 `full-date "T" partial-time`, no fraction of a second). */
  function ParseStamp(s: string): Option<Stamp> {
    if && |s| == 19
       && s[4] == '-' && s[7] == '-' && s[10] == 'T' && s[13] == ':' && s[16] == ':'
       && AllDigits(s[..4]) && AllDigits(s[5..7]) && AllDigits(s[8..10])
       && AllDigits(s[11..13]) && AllDigits(s[14..16]) && AllDigits(s[17..])
    then
      var st := Stamp(Date(DecimalValue(s[..4]), DecimalValue(s[5..7]), DecimalValue(s[8..10])),
                      Time(DecimalValue(s[11..13]), DecimalValue(s[14..16])),
                      DecimalValue(s[17..]));
      if ValidStamp(st) then Some(st) else None
    else None
  }

  /** The serialised timestamp is a valid RFC 3339 timestamp that reads back as the same date and time. */
  lemma IsoFormatRoundTrip(d: Date, t: Time)
    requires ValidDate(d) && ValidTime(t)
    ensures |IsoFormat(d, t)| == 19
    ensures ParseStamp(IsoFormat(d, t)) == Some(Stamp(d, t, 0))
  {
    var s := IsoFormat(d, t);
    assert s[..4] == Pad4(d.year);
    assert s[5..7] == Pad2(d.month);
    assert s[8..10] == Pad2(d.day);
    assert s[11..13] == Pad2(t.hour);
    assert s[14..16] == Pad2(t.minute);
    assert s[17..] == Pad2(0);
  }

  /** Every timestamp with zero seconds in a year `date` accepts is the serialisation of what it reads as. */
  lemma IsoFormatCanonical(s: string)
    requires ParseStamp(s).Some?
    requires ParseStamp(s).value.second == 0 && ParseStamp(s).value.date.year >= 1
    ensures IsoFormat(ParseStamp(s).value.date, ParseStamp(s).value.time) == s
  {
    Pad4OfValue(s[..4]);
    Pad2OfValue(s[5..7]);
    Pad2OfValue(s[8..10]);
    Pad2OfValue(s[11..13]);
    Pad2OfValue(s[14..16]);
    Pad2OfValue(s[17..]);
    assert s == s[..4] + "-" + s[5..7] + "-" + s[8..10] + "T" + s[11..13] + ":" + s[14..16] + ":" + s[17..];
  }

  /**
   * The date and time inside a serialised timestamp are texts the dialog's own date and
   * time steps accept, as the same date and time.
   */
  lemma IsoFormatFieldsParse(d: Date, t: Time)
    requires ValidDate(d) && ValidTime(t)
    ensures |IsoFormat(d, t)| == 19
    ensures ParseDate(IsoFormat(d, t)[..10]) == Ok(d)
    ensures ParseTime(IsoFormat(d, t)[11..16]) == Ok(t)
  {
    var s := IsoFormat(d, t);
    assert s[..10] == Pad4(d.year) + "-" + Pad2(d.month) + "-" + Pad2(d.day);
    SpellsDateOf(d, Pad2(d.month), Pad2(d.day));
    ParseDateComplete(s[..10], d);
    assert s[11..16] == Pad2(t.hour) + ":" + Pad2(t.minute);
    assert Pad2(t.hour) in HourTexts(t.hour) && Pad2(t.minute) in MinuteTexts(t.minute);
    ParseTimeComplete(s[11..16], t);
  }
}
