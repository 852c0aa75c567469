/**
 * Wall-clock timestamps with minute precision: the values the parser builds
 * from a date and a time of day, compares, moves by a day, moves into
 * another zone and renders as `YYYY-MM-DD HH:MM:SS`.
 */
module Timestamp {
  import opened Optional
  import opened Text
  import opened Calendar

  /** A time of day. No input ever carries seconds, so there are none. */
  datatype Clock = Clock(hour: int, minute: int)

  predicate ValidClock(c: Clock) {
    0 <= c.hour < 24 && 0 <= c.minute < 60
  }

  function MinuteOfDay(c: Clock): int {
    60 * c.hour + c.minute
  }

  /** The time of day m minutes after midnight. */
  function ClockAt(m: int): Clock {
    Clock(m / 60, m % 60)
  }

  /** A date and time of day on the wall clock of one zone. */
  datatype Stamp = Stamp(date: Date, time: Clock)

  predicate ValidStamp(t: Stamp) {
    ValidDate(t.date) && ValidClock(t.time)
  }

  /** Minutes since 0001-01-01 00:00 on the same wall clock: the order in
      which two stamps of one zone compare, and the distance between them. */
  function Minutes(t: Stamp): int
    requires 1 <= t.date.month <= 12
  {
    1440 * DayNumber(t.date) + MinuteOfDay(t.time)
  }

  /** The same time of day on the next calendar day. */
  function AddDay(t: Stamp): (r: Stamp)
    requires ValidStamp(t)
    ensures ValidStamp(r) && r.time == t.time
    ensures Minutes(r) == Minutes(t) + 1440
  {
    Stamp(NextDay(t.date), t.time)
  }

  /** The stamp `delta` minutes later (earlier when negative), carrying
      across as many calendar days as needed. */
  function Shift(t: Stamp, delta: int): (r: Stamp)
    requires ValidStamp(t)
    ensures ValidStamp(r)
  {
    var total := MinuteOfDay(t.time) + delta;
    var rest := total % 1440;
    Stamp(AddDays(t.date, total / 1440), ClockAt(rest))
  }

  /** Shifting by delta moves a stamp exactly delta minutes along its clock. */
  lemma ShiftMinutes(t: Stamp, delta: int)
    requires ValidStamp(t)
    ensures Minutes(Shift(t, delta)) == Minutes(t) + delta
  {
    var total := MinuteOfDay(t.time) + delta;
    AddDaysNumber(t.date, total / 1440);
  }

  /** Shifting there and back again returns the original stamp exactly. */
  lemma ShiftRoundTrip(t: Stamp, delta: int)
    requires ValidStamp(t)
    ensures Shift(Shift(t, delta), -delta) == t
  {
    var c := MinuteOfDay(t.time);
    var q, rest := (c + delta) / 1440, (c + delta) % 1440;
    ShiftBy(t, delta, q, rest);
    ShiftBack(t, delta, q, rest);
  }

  /** When the minute of the day plus delta is q whole days and rest minutes,
      shifting the stamp q days and rest minutes on back by delta restores it. */
  lemma ShiftBack(t: Stamp, delta: int, q: int, rest: int)
    requires ValidStamp(t) && 0 <= rest < 1440
    requires MinuteOfDay(t.time) + delta == 1440 * q + rest
    ensures Shift(Stamp(AddDays(t.date, q), ClockAt(rest)), -delta) == t
  {
    var u := Stamp(AddDays(t.date, q), ClockAt(rest));
    MinuteOfClock(rest);
    DivideDay(MinuteOfDay(t.time), rest - delta, -q);
    ShiftBy(u, -delta, -q, MinuteOfDay(t.time));
    AddDaysInverse(t.date, q);
    ClockOfMinute(t.time);
  }

  /** Shifting by delta lands `days` days on, at minute m of that day, when
      the minute of the day plus delta is `days` whole days and m minutes. */
  lemma ShiftBy(t: Stamp, delta: int, days: int, m: int)
    requires ValidStamp(t)
    requires (MinuteOfDay(t.time) + delta) / 1440 == days && (MinuteOfDay(t.time) + delta) % 1440 == m
    ensures Shift(t, delta) == Stamp(AddDays(t.date, days), ClockAt(m))
  {
  }

  /** A shift that stays inside the day keeps the date and moves the clock. */
  lemma ShiftWithinDay(t: Stamp, delta: int, m: int)
    requires ValidStamp(t)
    requires MinuteOfDay(t.time) + delta == m && 0 <= m < 1440
    ensures Shift(t, delta) == Stamp(t.date, ClockAt(m))
  {
    ShiftBy(t, delta, 0, m);
  }

  /** A shift past midnight, by less than a day, lands on the next day. */
  lemma ShiftIntoNextDay(t: Stamp, delta: int, m: int)
    requires ValidStamp(t)
    requires MinuteOfDay(t.time) + delta == 1440 + m && 0 <= m < 1440
    ensures Shift(t, delta) == Stamp(NextDay(t.date), ClockAt(m))
  {
    ShiftBy(t, delta, 1, m);
    assert AddDays(t.date, 1) == AddDays(NextDay(t.date), 0);
  }

  /** A minute of the day, split into hours and minutes, is that minute again. */
  lemma MinuteOfClock(m: int)
    requires 0 <= m < 1440
    ensures ValidClock(ClockAt(m)) && MinuteOfDay(ClockAt(m)) == m
  {
  }

  /** A count c + 1440 n with c inside one day divides back into n days and c. */
  lemma DivideDay(c: int, total: int, n: int)
    requires 0 <= c < 1440 && total == c + 1440 * n
    ensures total / 1440 == n && total % 1440 == c
  {
  }

  /** A valid time of day is recovered from its minute of the day. */
  lemma ClockOfMinute(c: Clock)
    requires ValidClock(c)
    ensures ClockAt(MinuteOfDay(c)) == c
  {
  }

  /** The year as `Y` renders it: at least four digits, a minus sign before
      years before year 0. */
  function YearText(y: int): (r: string)
    ensures 0 <= y ==> AllDigits(r) && Value(r) == y && |r| >= 4
    ensures 0 <= y < 10000 ==> |r| == 4
    ensures y < 0 ==> |r| >= 5 && r[0] == '-' && AllDigits(r[1..]) && Value(r[1..]) == -y
  {
    if y < 0 then
      var r := "-" + Pad(-y, 4);
      assert r[1..] == Pad(-y, 4);
      r
    else
      assert y < 10000 ==> |Pad(y, 4)| == 4 by {
        if y < 10000 {
          PadExact(y, 4);
        }
      }
      Pad(y, 4)
  }

  /** The `Y-m-d H:i:s` rendering of a stamp. */
  function Render(t: Stamp): (s: string)
    requires ValidStamp(t)
    ensures 0 <= t.date.year < 10000 ==> |s| == 19
  {
    PadExact(t.date.month, 2);
    PadExact(t.date.day, 2);
    PadExact(t.time.hour, 2);
    PadExact(t.time.minute, 2);
    YearText(t.date.year) + "-" + Pad(t.date.month, 2) + "-" + Pad(t.date.day, 2)
      + " " + Pad(t.time.hour, 2) + ":" + Pad(t.time.minute, 2) + ":00"
  }

  /** Reads a rendered stamp of a four-digit year back: digits and
      separators in their fixed columns, seconds zero. */
  function ReadStamp(s: string): Option<Stamp> {
    if |s| == 19 && s[4] == '-' && s[7] == '-' && s[10] == ' ' && s[13] == ':' && s[16..] == ":00"
    then ReadFields(s[0..4], s[5..7], s[8..10], s[11..13], s[14..16])
    else None
  }

  /** The stamp that year, month, day, hour and minute numerals denote, when
      they are all digits and name a valid date and time of day. */
  function ReadFields(y: string, mo: string, d: string, h: string, mi: string): Option<Stamp> {
    if AllDigits(y) && AllDigits(mo) && AllDigits(d) && AllDigits(h) && AllDigits(mi) then
      var t := Stamp(Date(Value(y), Value(mo), Value(d)), Clock(Value(h), Value(mi)));
      if ValidStamp(t) then Some(t) else None
    else None
  }

  /** The columns of a string laid out as a rendered stamp. */
  lemma Columns(y: string, mo: string, d: string, h: string, mi: string)
    requires |y| == 4 && |mo| == 2 && |d| == 2 && |h| == 2 && |mi| == 2
    ensures var s := y + "-" + mo + "-" + d + " " + h + ":" + mi + ":00";
      |s| == 19 && s[4] == '-' && s[7] == '-' && s[10] == ' ' && s[13] == ':' && s[16..] == ":00"
      && s[0..4] == y && s[5..7] == mo && s[8..10] == d && s[11..13] == h && s[14..16] == mi
  {
    var s := y + "-" + mo + "-" + d + " " + h + ":" + mi + ":00";
    assert s[0..4] == y;
    assert s[5..7] == mo;
    assert s[8..10] == d;
    assert s[11..13] == h;
    assert s[14..16] == mi;
    assert s[16..] == ":00";
  }

  /** Rendering loses nothing: a stamp of a four-digit year reads back as itself. */
  lemma RenderRoundTrip(t: Stamp)
    requires ValidStamp(t)
    ensures 0 <= t.date.year < 10000 ==> ReadStamp(Render(t)) == Some(t)
  {
    if 0 <= t.date.year < 10000 {
      PadExact(t.date.year, 4);
      PadExact(t.date.month, 2);
      PadExact(t.date.day, 2);
      PadExact(t.time.hour, 2);
      PadExact(t.time.minute, 2);
      var y, mo, d := Pad(t.date.year, 4), Pad(t.date.month, 2), Pad(t.date.day, 2);
      var h, mi := Pad(t.time.hour, 2), Pad(t.time.minute, 2);
      Columns(y, mo, d, h, mi);
      assert Render(t) == y + "-" + mo + "-" + d + " " + h + ":" + mi + ":00";
      assert ReadFields(y, mo, d, h, mi) == Some(t);
    }
  }
}
