/**
 * From a captured time token to a time of day: the rewrite of
 * four-character tokens, the date library's `H:i` reading, and the
 * conversion of 12-hour times.
 */
module TimeToken {
  import opened Optional
  import opened Text
  import opened Timestamp
  import opened ShiftPattern

  /** An hour and a minute, each printed with at least two digits, joined by
      a colon: the `%02d:%02d` format. */
  function ClockText(c: Clock): (r: string)
    requires 0 <= c.hour && 0 <= c.minute
    ensures c.hour < 100 && c.minute < 100 ==>
              && |r| == 5 && r[2] == ':'
              && AllDigits(r[..2]) && Value(r[..2]) == c.hour
              && AllDigits(r[3..]) && Value(r[3..]) == c.minute
  {
    var r := Pad(c.hour, 2) + ":" + Pad(c.minute, 2);
    assert c.hour < 100 && c.minute < 100 ==> |r| == 5 && r[..2] == Pad(c.hour, 2) && r[3..] == Pad(c.minute, 2) by {
      if c.hour < 100 && c.minute < 100 {
        PadExact(c.hour, 2);
        PadExact(c.minute, 2);
      }
    }
    r
  }

  /** The `H:i` reading of a time: one or two hour digits, a colon, exactly
      two minute digits, and nothing after them. Hour and minute are not
      range-checked here. */
  function ReadClock(text: string): (r: Option<Clock>)
    ensures r.Some? ==> 0 <= r.value.hour < 100 && 0 <= r.value.minute < 100
  {
    if |text| == 5 && AllDigits(text[..2]) && text[2] == ':' && AllDigits(text[3..]) then
      ValueBound(text[..2]);
      ValueBound(text[3..]);
      Some(Clock(Value(text[..2]), Value(text[3..])))
    else if |text| == 4 && AllDigits(text[..1]) && text[1] == ':' && AllDigits(text[2..]) then
      ValueBound(text[..1]);
      ValueBound(text[2..]);
      Some(Clock(Value(text[..1]), Value(text[2..])))
    else None
  }

  /** Printing a time and reading it back gives the same time. */
  lemma ReadClockText(c: Clock)
    requires 0 <= c.hour < 100 && 0 <= c.minute < 100
    ensures ReadClock(ClockText(c)) == Some(c)
  {
    PadExact(c.hour, 2);
    PadExact(c.minute, 2);
    var t := ClockText(c);
    assert t[..2] == Pad(c.hour, 2) && t[3..] == Pad(c.minute, 2);
  }

  /** The integer read from two characters is below 100. */
  lemma TwoCharInt(s: string)
    requires |s| == 2
    ensures LeadingInt(s) < 100
  {
    var n := LeadingDigits(s);
    ValueBound(s[..n]);
    assert Pow10(2) == 100;
    assert Pow10(n) <= 100;
  }

  /** The rewrite applied to each captured 24-hour token: a token of exactly
      four characters becomes the integer read from its first two characters
      and the one read from its last two, printed `%02d:%02d`. The test is
      on the length alone, so `9:00` becomes `09:00` and `12:3` becomes
      `12:00`. Tokens of any other length pass unchanged. */
  function Normalize(token: string): (r: string)
    ensures |token| != 4 ==> r == token
    ensures |token| == 4 ==> |r| == 5
    ensures |token| == 4 ==> ReadClock(r) == Some(Clock(LeadingInt(token[..2]), LeadingInt(token[2..])))
  {
    if |token| == 4 then
      var c := Clock(LeadingInt(token[..2]), LeadingInt(token[2..]));
      TwoCharInt(token[..2]);
      TwoCharInt(token[2..]);
      ReadClockText(c);
      PadExact(c.hour, 2);
      PadExact(c.minute, 2);
      ClockText(c)
    else token
  }

  /** The rewrite never changes its own output. */
  lemma NormalizeIdempotent(token: string)
    ensures Normalize(Normalize(token)) == Normalize(token)
  {
  }

  /** Four digits gain a colon in the middle: "1900" becomes "19:00". */
  lemma NormalizeFourDigits(token: string)
    requires |token| == 4 && AllDigits(token)
    ensures Normalize(token) == token[..2] + ":" + token[2..]
  {
    PadTwoDigits(token[..2]);
    PadTwoDigits(token[2..]);
  }

  /** A one-digit hour, a colon and two minute digits read as that hour and
      minute: "9:00" is nine o'clock. */
  lemma ReadShortClock(h: nat, m: nat)
    requires h <= 9 && m < 100
    ensures ReadClock(Digits(h) + ":" + Pad(m, 2)) == Some(Clock(h, m))
  {
    PadExact(m, 2);
    var t := Digits(h) + ":" + Pad(m, 2);
    assert t[..1] == Digits(h) && t[2..] == Pad(m, 2);
  }

  /** A token that already reads as a time reads as the same time after the
      rewrite: "9:00" becomes "09:00". */
  lemma NormalizeKeepsReading(token: string)
    requires ReadClock(token).Some?
    ensures ReadClock(Normalize(token)) == ReadClock(token)
  {
    if |token| == 4 {
      assert token[..2][..1] == token[..1];
      assert token[..2][1] == ':';
      assert LeadingDigits(token[..2]) == 1;
    }
  }

  /** A one-digit minute after the colon is read as zero minutes: "12:3"
      becomes "12:00", while the token alone does not read as a time. */
  lemma NormalizeShortMinute(a: char, b: char, c: char)
    requires IsDigit(a) && IsDigit(b) && IsDigit(c)
    ensures ReadClock([a, b, ':', c]).None?
    ensures Normalize([a, b, ':', c]) == [a, b] + ":00"
  {
    var t := [a, b, ':', c];
    assert t[..2] == [a, b];
    assert LeadingInt(t[2..]) == 0;
    PadTwoDigits([a, b]);
    assert Pad(0, 2) == "00" by {
      assert Pad(0, 1) == Digits(0) == "0";
    }
  }

  /** No letter the `A` format stops at. */
  predicate NoMeridiemLetter(s: string) {
    forall i :: 0 <= i < |s| ==> s[i] != 'A' && s[i] != 'a' && s[i] != 'P' && s[i] != 'p'
  }

  /** The `H:i` part of the `H:i A` reading. The hour takes one or two
      digits, then a colon and exactly two minute digits; what follows up to
      the marker is passed over, because the space of the format may match
      nothing and `A` skips every character before the first A, a, P or p.
      So "7:000" reads as 7:00, where `H:i` alone refuses it. */
  function ReadTwelveHourClock(token: string): (r: Option<Clock>)
    ensures ReadClock(token).Some? ==> r == ReadClock(token)
    ensures r.Some? ==> (5 <= |token| && r == ReadClock(token[..5]) && NoMeridiemLetter(token[5..]))
                        || (4 <= |token| && r == ReadClock(token[..4]) && NoMeridiemLetter(token[4..]))
  {
    if 5 <= |token| && AllDigits(token[..2]) && token[2] == ':' && NoMeridiemLetter(token[5..]) then
      assert |token| == 5 ==> token[..5] == token;
      ReadClock(token[..5])
    else if 4 <= |token| && AllDigits(token[..1]) && token[1] == ':' && NoMeridiemLetter(token[4..]) then
      assert |token| == 4 ==> token[..4] == token;
      ReadClock(token[..4])
    else None
  }

  /** Digits after the two minute digits change nothing in the `H:i A`
      reading: "7:000" reads as "7:00" does. */
  lemma TrailingDigitsIgnored(t: string, d: string)
    requires ReadClock(t).Some? && AllDigits(d)
    ensures ReadTwelveHourClock(t + d) == ReadClock(t)
  {
    var u := t + d;
    if |t| == 5 {
      assert u[..5] == t && u[5..] == d;
      assert u[..2] == t[..2];
    } else {
      assert u[..4] == t && u[4..] == d;
      assert u[..1] == t[..1];
      assert !AllDigits(u[..2]) by {
        assert u[..2][1] == ':';
      }
    }
  }

  datatype Meridiem = AM | PM

  /** The meridiem a captured 12-hour marker names: the letter before its `M`. */
  function MarkerMeridiem(marker: string): (m: Meridiem)
    ensures MarkerOk(TwelveHour, marker) ==> (m == PM <==> marker[|marker| - 2..] == "PM")
    ensures MarkerOk(TwelveHour, marker) ==> (m == AM <==> marker[|marker| - 2..] == "AM")
  {
    if |marker| >= 2 && marker[|marker| - 2] == 'P' then PM else AM
  }

  /** The hour of the day a 12-hour clock hour denotes: 12 AM is midnight,
      12 PM is noon, the other PM hours are twelve hours later. */
  function HourOfDay(hour: int, m: Meridiem): (h: int)
    ensures 1 <= hour <= 12 ==> 0 <= h < 24 && (m == PM <==> h >= 12)
  {
    match m
    case AM => if hour == 12 then 0 else hour
    case PM => if hour == 12 then 12 else hour + 12
  }

  /** The 12-hour clock reading of an hour of the day. */
  function TwelveHourOf(h: int): (r: (int, Meridiem))
    requires 0 <= h < 24
    ensures 1 <= r.0 <= 12
  {
    if h == 0 then (12, AM)
    else if h < 12 then (h, AM)
    else if h == 12 then (12, PM)
    else (h - 12, PM)
  }

  /** The 12-hour clock and the 24-hour clock name the same hours, one to one. */
  lemma HourRoundTrip(hour: int, m: Meridiem, h: int)
    ensures 1 <= hour <= 12 ==> TwelveHourOf(HourOfDay(hour, m)) == (hour, m)
    ensures 0 <= h < 24 ==> HourOfDay(TwelveHourOf(h).0, TwelveHourOf(h).1) == h
  {
  }

  /** A time of day in range: hour below 24, minute below 60. The library
      overflows any other time into the next hour or day; the model refuses it. */
  function InRange(c: Option<Clock>): (r: Option<Clock>)
    ensures r.Some? <==> c.Some? && ValidClock(c.value)
    ensures r.Some? ==> r == c
  {
    if c.Some? && ValidClock(c.value) then c else None
  }

  /** The time of day a captured token denotes under each shape: a 24-hour
      token is rewritten and read as `H:i`; a 12-hour token is read as the
      `H:i` of `H:i A` and moved by its marker. None when the library refuses
      the token, or when the time it reads is out of range. */
  function TokenClock(shape: Shape, token: string, marker: string): (r: Option<Clock>)
    ensures r.Some? ==> ValidClock(r.value)
  {
    match shape
    case TwentyFourHour => InRange(ReadClock(Normalize(token)))
    case TwelveHour =>
      match ReadTwelveHourClock(token)
      case None => None
      case Some(c) => InRange(Some(Clock(HourOfDay(c.hour, MarkerMeridiem(marker)), c.minute)))
  }

  /** Every time of day, printed `HH:MM` as a 24-hour token, reads back as itself. */
  lemma TwentyFourHourToken(c: Clock)
    requires ValidClock(c)
    ensures TokenClock(TwentyFourHour, ClockText(c), []) == Some(c)
  {
    PadExact(c.hour, 2);
    PadExact(c.minute, 2);
    ReadClockText(c);
  }

  /** Every time of day, printed on the 12-hour clock with its marker, reads
      back as itself. */
  lemma TwelveHourToken(c: Clock, space: bool)
    requires ValidClock(c)
    ensures var (hour, m) := TwelveHourOf(c.hour);
            TokenClock(TwelveHour, ClockText(Clock(hour, c.minute)),
                       (if space then " " else "") + (if m == AM then "AM" else "PM")) == Some(c)
  {
    var (hour, m) := TwelveHourOf(c.hour);
    PadExact(hour, 2);
    PadExact(c.minute, 2);
    ReadClockText(Clock(hour, c.minute));
  }

  /** Every time of day before ten, printed `H:MM` with a one-digit hour as a
      24-hour token, reads back as itself. */
  lemma TwentyFourHourShortToken(c: Clock)
    requires ValidClock(c) && c.hour <= 9
    ensures TokenClock(TwentyFourHour, Digits(c.hour) + ":" + Pad(c.minute, 2), []) == Some(c)
  {
    ReadShortClock(c.hour, c.minute);
    NormalizeKeepsReading(Digits(c.hour) + ":" + Pad(c.minute, 2));
  }

  /** Every time of day whose 12-hour clock hour is below ten, printed `H:MM`
      with its marker, spaced or not, reads back as itself: "7:00 PM" is
      19:00. */
  lemma TwelveHourShortToken(c: Clock, space: bool)
    requires ValidClock(c) && TwelveHourOf(c.hour).0 <= 9
    ensures var (hour, m) := TwelveHourOf(c.hour);
            TokenClock(TwelveHour, Digits(hour) + ":" + Pad(c.minute, 2),
                       (if space then " " else "") + (if m == AM then "AM" else "PM")) == Some(c)
  {
    var (hour, m) := TwelveHourOf(c.hour);
    ReadShortClock(hour, c.minute);
  }

  /** A 12-hour token with extra digits after its minutes denotes the time
      the token without them does, whatever its marker. */
  lemma TwelveHourTrailingDigits(t: string, d: string, marker: string)
    requires ReadClock(t).Some? && AllDigits(d)
    ensures TokenClock(TwelveHour, t + d, marker) == TokenClock(TwelveHour, t, marker)
  {
    TrailingDigitsIgnored(t, d);
  }

  /** "7:000 PM" is seven in the evening. */
  lemma SevenPmExtraDigit()
    ensures TokenClock(TwelveHour, "7:000", " PM") == Some(Clock(19, 0))
  {
    ReadShortClock(7, 0);
    assert Pad(0, 2) == "00" by {
      assert Pad(0, 1) == Digits(0) == "0";
    }
    assert Digits(7) + ":" + Pad(0, 2) == "7:00";
    TwelveHourTrailingDigits("7:00", "0", " PM");
    assert "7:00" + "0" == "7:000";
  }
}
