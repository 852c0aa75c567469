/**
 * The parser's documented examples, worked through the model. Each takes a
 * shift string on its date and states the rendered start and end. The
 * examples hold for any zone table that knows the zones involved. Where a
 * zone change is involved, the table must also have the offsets those zones
 * had on that date.
 */
module Scenarios {
  import opened Optional
  import opened Text
  import opened Calendar
  import opened Timestamp
  import opened Zones
  import opened ShiftPattern
  import opened TimeToken
  import opened DateRange

  /** The span a reading gives without a target zone, once both of its
      tokens are known to read as times of day. */
  lemma OutcomeReads(date: Date, shape: Shape, rd: Reading, source: string, zones: ZoneTable,
                     c1: Clock, c2: Clock)
    requires ValidDate(date) && source in zones
    requires TokenClock(shape, rd.start, rd.startMarker) == Some(c1)
    requires TokenClock(shape, rd.end, rd.endMarker) == Some(c2)
    ensures ValidClock(c1) && ValidClock(c2)
    ensures Outcome(date, shape, rd, source, None, zones)
              == Ok(Span(Stamp(date, c1), Rollover(Stamp(date, c1), Stamp(date, c2))))
  {
  }

  /** "not-a-range" on 2022-07-22 in SAST is refused as an unrecognised format. */
  lemma NotARange(zones: ZoneTable)
    ensures Parse(Date(2022, 7, 22), "not-a-range", "SAST", None, zones) == Err(UnrecognizedFormat)
  {
    NoDigitsRejected(Date(2022, 7, 22), "not-a-range", "SAST", None, zones);
  }

  /** "garbage" on 2022-07-22 in SAST is refused as an unrecognised format. */
  lemma Garbage(zones: ZoneTable)
    ensures Parse(Date(2022, 7, 22), "garbage", "SAST", None, zones) == Err(UnrecognizedFormat)
  {
    NoDigitsRejected(Date(2022, 7, 22), "garbage", "SAST", None, zones);
  }

  /** "1900-0000" on 2022-07-22 in SAST gives 2022-07-22 19:00:00 to 2022-07-23 00:00:00. */
  lemma PlainDigits(zones: ZoneTable)
    requires "SAST" in zones
    ensures Parse(Date(2022, 7, 22), "1900-0000", "SAST", None, zones)
              == Ok(("2022-07-22 19:00:00", "2022-07-23 00:00:00"))
  {
    ReadsPlainDigits(zones);
    ParseOf(Date(2022, 7, 22), "1900-0000", "SAST", None, zones, Span(Stamp(Date(2022, 7, 22), Clock(19, 0)), Stamp(Date(2022, 7, 23), Clock(0, 0))));
    Render20220722At1900();
    Render20220723At0000();
  }

  /** "1900 - 0000" on 2022-07-22 in SAST gives 2022-07-22 19:00:00 to 2022-07-23 00:00:00. */
  lemma SpacedDigits(zones: ZoneTable)
    requires "SAST" in zones
    ensures Parse(Date(2022, 7, 22), "1900 - 0000", "SAST", None, zones)
              == Ok(("2022-07-22 19:00:00", "2022-07-23 00:00:00"))
  {
    ReadsSpacedDigits(zones);
    ParseOf(Date(2022, 7, 22), "1900 - 0000", "SAST", None, zones, Span(Stamp(Date(2022, 7, 22), Clock(19, 0)), Stamp(Date(2022, 7, 23), Clock(0, 0))));
    Render20220722At1900();
    Render20220723At0000();
  }

  /** "19:00-00:00" on 2022-07-22 in SAST gives 2022-07-22 19:00:00 to 2022-07-23 00:00:00. */
  lemma ColonTimes(zones: ZoneTable)
    requires "SAST" in zones
    ensures Parse(Date(2022, 7, 22), "19:00-00:00", "SAST", None, zones)
              == Ok(("2022-07-22 19:00:00", "2022-07-23 00:00:00"))
  {
    ReadsColonTimes(zones);
    ParseOf(Date(2022, 7, 22), "19:00-00:00", "SAST", None, zones, Span(Stamp(Date(2022, 7, 22), Clock(19, 0)), Stamp(Date(2022, 7, 23), Clock(0, 0))));
    Render20220722At1900();
    Render20220723At0000();
  }

  /** "19:00 - 00:00" on 2022-07-22 in SAST gives 2022-07-22 19:00:00 to 2022-07-23 00:00:00. */
  lemma SpacedColonTimes(zones: ZoneTable)
    requires "SAST" in zones
    ensures Parse(Date(2022, 7, 22), "19:00 - 00:00", "SAST", None, zones)
              == Ok(("2022-07-22 19:00:00", "2022-07-23 00:00:00"))
  {
    ReadsSpacedColonTimes(zones);
    ParseOf(Date(2022, 7, 22), "19:00 - 00:00", "SAST", None, zones, Span(Stamp(Date(2022, 7, 22), Clock(19, 0)), Stamp(Date(2022, 7, 23), Clock(0, 0))));
    Render20220722At1900();
    Render20220723At0000();
  }

  /** "L 19:00 - 00:00" on 2022-07-22 in SAST gives 2022-07-22 19:00:00 to 2022-07-23 00:00:00. */
  lemma OneLetterCode(zones: ZoneTable)
    requires "SAST" in zones
    ensures Parse(Date(2022, 7, 22), "L 19:00 - 00:00", "SAST", None, zones)
              == Ok(("2022-07-22 19:00:00", "2022-07-23 00:00:00"))
  {
    ReadsOneLetterCode(zones);
    ParseOf(Date(2022, 7, 22), "L 19:00 - 00:00", "SAST", None, zones, Span(Stamp(Date(2022, 7, 22), Clock(19, 0)), Stamp(Date(2022, 7, 23), Clock(0, 0))));
    Render20220722At1900();
    Render20220723At0000();
  }

  /** "LA 19:00 - 00:00" on 2022-07-22 in SAST gives 2022-07-22 19:00:00 to 2022-07-23 00:00:00. */
  lemma TwoLetterCode(zones: ZoneTable)
    requires "SAST" in zones
    ensures Parse(Date(2022, 7, 22), "LA 19:00 - 00:00", "SAST", None, zones)
              == Ok(("2022-07-22 19:00:00", "2022-07-23 00:00:00"))
  {
    ReadsTwoLetterCode(zones);
    ParseOf(Date(2022, 7, 22), "LA 19:00 - 00:00", "SAST", None, zones, Span(Stamp(Date(2022, 7, 22), Clock(19, 0)), Stamp(Date(2022, 7, 23), Clock(0, 0))));
    Render20220722At1900();
    Render20220723At0000();
  }

  /** "11:00 AM - 08:00 PM" on 2022-07-22 in SAST gives 2022-07-22 11:00:00 to 2022-07-22 20:00:00. */
  lemma MorningToEvening(zones: ZoneTable)
    requires "SAST" in zones
    ensures Parse(Date(2022, 7, 22), "11:00 AM - 08:00 PM", "SAST", None, zones)
              == Ok(("2022-07-22 11:00:00", "2022-07-22 20:00:00"))
  {
    ReadsMorningToEvening(zones);
    ParseOf(Date(2022, 7, 22), "11:00 AM - 08:00 PM", "SAST", None, zones, Span(Stamp(Date(2022, 7, 22), Clock(11, 0)), Stamp(Date(2022, 7, 22), Clock(20, 0))));
    Render20220722At1100();
    Render20220722At2000();
  }

  /** "L 7:00 PM - 12:00 AM" on 2022-07-22 in SAST gives 2022-07-22 19:00:00 to 2022-07-23 00:00:00. */
  lemma OneLetterEvening(zones: ZoneTable)
    requires "SAST" in zones
    ensures Parse(Date(2022, 7, 22), "L 7:00 PM - 12:00 AM", "SAST", None, zones)
              == Ok(("2022-07-22 19:00:00", "2022-07-23 00:00:00"))
  {
    ReadsOneLetterEvening(zones);
    ParseOf(Date(2022, 7, 22), "L 7:00 PM - 12:00 AM", "SAST", None, zones, Span(Stamp(Date(2022, 7, 22), Clock(19, 0)), Stamp(Date(2022, 7, 23), Clock(0, 0))));
    Render20220722At1900();
    Render20220723At0000();
  }

  /** "LA 7:00 PM - 12:00 AM" on 2022-07-22 in SAST gives 2022-07-22 19:00:00 to 2022-07-23 00:00:00. */
  lemma TwoLetterEvening(zones: ZoneTable)
    requires "SAST" in zones
    ensures Parse(Date(2022, 7, 22), "LA 7:00 PM - 12:00 AM", "SAST", None, zones)
              == Ok(("2022-07-22 19:00:00", "2022-07-23 00:00:00"))
  {
    ReadsTwoLetterEvening(zones);
    ParseOf(Date(2022, 7, 22), "LA 7:00 PM - 12:00 AM", "SAST", None, zones, Span(Stamp(Date(2022, 7, 22), Clock(19, 0)), Stamp(Date(2022, 7, 23), Clock(0, 0))));
    Render20220722At1900();
    Render20220723At0000();
  }

  /** "5:00PM - 02:00AM" on 2022-09-26 in SAST gives 2022-09-26 17:00:00 to 2022-09-27 02:00:00. */
  lemma UnspacedMarkers(zones: ZoneTable)
    requires "SAST" in zones
    ensures Parse(Date(2022, 9, 26), "5:00PM - 02:00AM", "SAST", None, zones)
              == Ok(("2022-09-26 17:00:00", "2022-09-27 02:00:00"))
  {
    ReadsUnspacedMarkers(zones);
    ParseOf(Date(2022, 9, 26), "5:00PM - 02:00AM", "SAST", None, zones, Span(Stamp(Date(2022, 9, 26), Clock(17, 0)), Stamp(Date(2022, 9, 27), Clock(2, 0))));
    Render20220926At1700();
    Render20220927At0200();
  }

  /** "1900-0000" on 2022-07-22 in BST shown in SAST gives 2022-07-22 20:00:00 to 2022-07-23 01:00:00. */
  lemma LondonPlainDigits(zones: ZoneTable)
    requires "Europe/London" in zones && "SAST" in zones
    requires zones["SAST"] - zones["Europe/London"] == 60
    ensures Parse(Date(2022, 7, 22), "1900-0000", "BST", Some("SAST"), zones)
              == Ok(("2022-07-22 20:00:00", "2022-07-23 01:00:00"))
  {
    MovesPlainDigits(zones);
    ParseOf(Date(2022, 7, 22), "1900-0000", "BST", Some("SAST"), zones, Span(Stamp(Date(2022, 7, 22), Clock(20, 0)), Stamp(Date(2022, 7, 23), Clock(1, 0))));
    Render20220722At2000();
    Render20220723At0100();
  }

  /** "1900 - 0000" on 2022-07-22 in BST shown in SAST gives 2022-07-22 20:00:00 to 2022-07-23 01:00:00. */
  lemma LondonSpacedDigits(zones: ZoneTable)
    requires "Europe/London" in zones && "SAST" in zones
    requires zones["SAST"] - zones["Europe/London"] == 60
    ensures Parse(Date(2022, 7, 22), "1900 - 0000", "BST", Some("SAST"), zones)
              == Ok(("2022-07-22 20:00:00", "2022-07-23 01:00:00"))
  {
    MovesSpacedDigits(zones);
    ParseOf(Date(2022, 7, 22), "1900 - 0000", "BST", Some("SAST"), zones, Span(Stamp(Date(2022, 7, 22), Clock(20, 0)), Stamp(Date(2022, 7, 23), Clock(1, 0))));
    Render20220722At2000();
    Render20220723At0100();
  }

  /** "19:00-00:00" on 2022-07-22 in BST shown in SAST gives 2022-07-22 20:00:00 to 2022-07-23 01:00:00. */
  lemma LondonColonTimes(zones: ZoneTable)
    requires "Europe/London" in zones && "SAST" in zones
    requires zones["SAST"] - zones["Europe/London"] == 60
    ensures Parse(Date(2022, 7, 22), "19:00-00:00", "BST", Some("SAST"), zones)
              == Ok(("2022-07-22 20:00:00", "2022-07-23 01:00:00"))
  {
    MovesColonTimes(zones);
    ParseOf(Date(2022, 7, 22), "19:00-00:00", "BST", Some("SAST"), zones, Span(Stamp(Date(2022, 7, 22), Clock(20, 0)), Stamp(Date(2022, 7, 23), Clock(1, 0))));
    Render20220722At2000();
    Render20220723At0100();
  }

  /** "19:00 - 00:00" on 2022-07-22 in BST shown in SAST gives 2022-07-22 20:00:00 to 2022-07-23 01:00:00. */
  lemma LondonSpacedColonTimes(zones: ZoneTable)
    requires "Europe/London" in zones && "SAST" in zones
    requires zones["SAST"] - zones["Europe/London"] == 60
    ensures Parse(Date(2022, 7, 22), "19:00 - 00:00", "BST", Some("SAST"), zones)
              == Ok(("2022-07-22 20:00:00", "2022-07-23 01:00:00"))
  {
    MovesSpacedColonTimes(zones);
    ParseOf(Date(2022, 7, 22), "19:00 - 00:00", "BST", Some("SAST"), zones, Span(Stamp(Date(2022, 7, 22), Clock(20, 0)), Stamp(Date(2022, 7, 23), Clock(1, 0))));
    Render20220722At2000();
    Render20220723At0100();
  }

  /** "11:00 AM - 08:00 PM" on 2022-07-22 in BST shown in SAST gives 2022-07-22 12:00:00 to 2022-07-22 21:00:00. */
  lemma LondonMorningToEvening(zones: ZoneTable)
    requires "Europe/London" in zones && "SAST" in zones
    requires zones["SAST"] - zones["Europe/London"] == 60
    ensures Parse(Date(2022, 7, 22), "11:00 AM - 08:00 PM", "BST", Some("SAST"), zones)
              == Ok(("2022-07-22 12:00:00", "2022-07-22 21:00:00"))
  {
    MovesMorningToEvening(zones);
    ParseOf(Date(2022, 7, 22), "11:00 AM - 08:00 PM", "BST", Some("SAST"), zones, Span(Stamp(Date(2022, 7, 22), Clock(12, 0)), Stamp(Date(2022, 7, 22), Clock(21, 0))));
    Render20220722At1200();
    Render20220722At2100();
  }

  /** "L 19:00 - 00:00" on 2022-07-22 in BST shown in SAST gives 2022-07-22 20:00:00 to 2022-07-23 01:00:00. */
  lemma LondonOneLetterCode(zones: ZoneTable)
    requires "Europe/London" in zones && "SAST" in zones
    requires zones["SAST"] - zones["Europe/London"] == 60
    ensures Parse(Date(2022, 7, 22), "L 19:00 - 00:00", "BST", Some("SAST"), zones)
              == Ok(("2022-07-22 20:00:00", "2022-07-23 01:00:00"))
  {
    MovesOneLetterCode(zones);
    ParseOf(Date(2022, 7, 22), "L 19:00 - 00:00", "BST", Some("SAST"), zones, Span(Stamp(Date(2022, 7, 22), Clock(20, 0)), Stamp(Date(2022, 7, 23), Clock(1, 0))));
    Render20220722At2000();
    Render20220723At0100();
  }

  /** "LA 19:00 - 00:00" on 2022-07-22 in BST shown in SAST gives 2022-07-22 20:00:00 to 2022-07-23 01:00:00. */
  lemma LondonTwoLetterCode(zones: ZoneTable)
    requires "Europe/London" in zones && "SAST" in zones
    requires zones["SAST"] - zones["Europe/London"] == 60
    ensures Parse(Date(2022, 7, 22), "LA 19:00 - 00:00", "BST", Some("SAST"), zones)
              == Ok(("2022-07-22 20:00:00", "2022-07-23 01:00:00"))
  {
    MovesTwoLetterCode(zones);
    ParseOf(Date(2022, 7, 22), "LA 19:00 - 00:00", "BST", Some("SAST"), zones, Span(Stamp(Date(2022, 7, 22), Clock(20, 0)), Stamp(Date(2022, 7, 23), Clock(1, 0))));
    Render20220722At2000();
    Render20220723At0100();
  }

  /** "L 7:00 PM - 12:00 AM" on 2022-07-22 in BST shown in SAST gives 2022-07-22 20:00:00 to 2022-07-23 01:00:00. */
  lemma LondonOneLetterEvening(zones: ZoneTable)
    requires "Europe/London" in zones && "SAST" in zones
    requires zones["SAST"] - zones["Europe/London"] == 60
    ensures Parse(Date(2022, 7, 22), "L 7:00 PM - 12:00 AM", "BST", Some("SAST"), zones)
              == Ok(("2022-07-22 20:00:00", "2022-07-23 01:00:00"))
  {
    MovesOneLetterEvening(zones);
    ParseOf(Date(2022, 7, 22), "L 7:00 PM - 12:00 AM", "BST", Some("SAST"), zones, Span(Stamp(Date(2022, 7, 22), Clock(20, 0)), Stamp(Date(2022, 7, 23), Clock(1, 0))));
    Render20220722At2000();
    Render20220723At0100();
  }

  /** "LA 7:00 PM - 12:00 AM" on 2022-07-22 in BST shown in SAST gives 2022-07-22 20:00:00 to 2022-07-23 01:00:00. */
  lemma LondonTwoLetterEvening(zones: ZoneTable)
    requires "Europe/London" in zones && "SAST" in zones
    requires zones["SAST"] - zones["Europe/London"] == 60
    ensures Parse(Date(2022, 7, 22), "LA 7:00 PM - 12:00 AM", "BST", Some("SAST"), zones)
              == Ok(("2022-07-22 20:00:00", "2022-07-23 01:00:00"))
  {
    MovesTwoLetterEvening(zones);
    ParseOf(Date(2022, 7, 22), "LA 7:00 PM - 12:00 AM", "BST", Some("SAST"), zones, Span(Stamp(Date(2022, 7, 22), Clock(20, 0)), Stamp(Date(2022, 7, 23), Clock(1, 0))));
    Render20220722At2000();
    Render20220723At0100();
  }

  /** "E 10:00 AM - 7:00 PM" on 2022-07-22 in BST shown in SAST gives 2022-07-22 11:00:00 to 2022-07-22 20:00:00. */
  lemma LondonShortEvening(zones: ZoneTable)
    requires "Europe/London" in zones && "SAST" in zones
    requires zones["SAST"] - zones["Europe/London"] == 60
    ensures Parse(Date(2022, 7, 22), "E 10:00 AM - 7:00 PM", "BST", Some("SAST"), zones)
              == Ok(("2022-07-22 11:00:00", "2022-07-22 20:00:00"))
  {
    MovesShortEvening(zones);
    ParseOf(Date(2022, 7, 22), "E 10:00 AM - 7:00 PM", "BST", Some("SAST"), zones, Span(Stamp(Date(2022, 7, 22), Clock(11, 0)), Stamp(Date(2022, 7, 22), Clock(20, 0))));
    Render20220722At1100();
    Render20220722At2000();
  }

  /** "DY 08:00 AM - 06:00 PM" on 2022-07-22 in BST shown in SAST gives 2022-07-22 09:00:00 to 2022-07-22 19:00:00. */
  lemma LondonPaddedHours(zones: ZoneTable)
    requires "Europe/London" in zones && "SAST" in zones
    requires zones["SAST"] - zones["Europe/London"] == 60
    ensures Parse(Date(2022, 7, 22), "DY 08:00 AM - 06:00 PM", "BST", Some("SAST"), zones)
              == Ok(("2022-07-22 09:00:00", "2022-07-22 19:00:00"))
  {
    MovesPaddedHours(zones);
    ParseOf(Date(2022, 7, 22), "DY 08:00 AM - 06:00 PM", "BST", Some("SAST"), zones, Span(Stamp(Date(2022, 7, 22), Clock(9, 0)), Stamp(Date(2022, 7, 22), Clock(19, 0))));
    Render20220722At0900();
    Render20220722At1900();
  }

  /** "E 9:00 AM - 6:00 PM" on 2022-07-22 in BST shown in SAST gives 2022-07-22 10:00:00 to 2022-07-22 19:00:00. */
  lemma LondonShortHours(zones: ZoneTable)
    requires "Europe/London" in zones && "SAST" in zones
    requires zones["SAST"] - zones["Europe/London"] == 60
    ensures Parse(Date(2022, 7, 22), "E 9:00 AM - 6:00 PM", "BST", Some("SAST"), zones)
              == Ok(("2022-07-22 10:00:00", "2022-07-22 19:00:00"))
  {
    MovesShortHours(zones);
    ParseOf(Date(2022, 7, 22), "E 9:00 AM - 6:00 PM", "BST", Some("SAST"), zones, Span(Stamp(Date(2022, 7, 22), Clock(10, 0)), Stamp(Date(2022, 7, 22), Clock(19, 0))));
    Render20220722At1000();
    Render20220722At1900();
  }

  /** "L 2:00 PM - 11:00 PM" on 2022-07-22 in BST shown in SAST gives 2022-07-22 15:00:00 to 2022-07-23 00:00:00. */
  lemma LondonPastMidnight(zones: ZoneTable)
    requires "Europe/London" in zones && "SAST" in zones
    requires zones["SAST"] - zones["Europe/London"] == 60
    ensures Parse(Date(2022, 7, 22), "L 2:00 PM - 11:00 PM", "BST", Some("SAST"), zones)
              == Ok(("2022-07-22 15:00:00", "2022-07-23 00:00:00"))
  {
    MovesPastMidnight(zones);
    ParseOf(Date(2022, 7, 22), "L 2:00 PM - 11:00 PM", "BST", Some("SAST"), zones, Span(Stamp(Date(2022, 7, 22), Clock(15, 0)), Stamp(Date(2022, 7, 23), Clock(0, 0))));
    Render20220722At1500();
    Render20220723At0000();
  }

  /** "5:00PM - 02:00AM" on 2022-09-26 in BST shown in SAST gives 2022-09-26 18:00:00 to 2022-09-27 03:00:00. */
  lemma LondonUnspacedMarkers(zones: ZoneTable)
    requires "Europe/London" in zones && "SAST" in zones
    requires zones["SAST"] - zones["Europe/London"] == 60
    ensures Parse(Date(2022, 9, 26), "5:00PM - 02:00AM", "BST", Some("SAST"), zones)
              == Ok(("2022-09-26 18:00:00", "2022-09-27 03:00:00"))
  {
    MovesUnspacedMarkers(zones);
    ParseOf(Date(2022, 9, 26), "5:00PM - 02:00AM", "BST", Some("SAST"), zones, Span(Stamp(Date(2022, 9, 26), Clock(18, 0)), Stamp(Date(2022, 9, 27), Clock(3, 0))));
    Render20220926At1800();
    Render20220927At0300();
  }

  // The spans before rendering, and before any change of zone.

  lemma ReadsPlainDigits(zones: ZoneTable)
    requires "SAST" in zones
    ensures ParseSpan(Date(2022, 7, 22), "1900-0000", "SAST", None, zones)
              == Ok(Span(Stamp(Date(2022, 7, 22), Clock(19, 0)), Stamp(Date(2022, 7, 23), Clock(0, 0))))
  {
    SplitsPlainDigits();
    ZoneSAST();
    ParseSpanOf(Date(2022, 7, 22), "1900-0000", "SAST", None, zones, TwentyFourHour, Reading("", "1900", "", "-", "0000", ""));
    Token1900();
    Token0000();
    OutcomeReads(Date(2022, 7, 22), TwentyFourHour, Reading("", "1900", "", "-", "0000", ""), "SAST", zones, Clock(19, 0), Clock(0, 0));
    Rollover20220722At1900To0000();
  }

  lemma ReadsSpacedDigits(zones: ZoneTable)
    requires "SAST" in zones
    ensures ParseSpan(Date(2022, 7, 22), "1900 - 0000", "SAST", None, zones)
              == Ok(Span(Stamp(Date(2022, 7, 22), Clock(19, 0)), Stamp(Date(2022, 7, 23), Clock(0, 0))))
  {
    SplitsSpacedDigits();
    ZoneSAST();
    ParseSpanOf(Date(2022, 7, 22), "1900 - 0000", "SAST", None, zones, TwentyFourHour, Reading("", "1900", "", " - ", "0000", ""));
    Token1900();
    Token0000();
    OutcomeReads(Date(2022, 7, 22), TwentyFourHour, Reading("", "1900", "", " - ", "0000", ""), "SAST", zones, Clock(19, 0), Clock(0, 0));
    Rollover20220722At1900To0000();
  }

  lemma ReadsColonTimes(zones: ZoneTable)
    requires "SAST" in zones
    ensures ParseSpan(Date(2022, 7, 22), "19:00-00:00", "SAST", None, zones)
              == Ok(Span(Stamp(Date(2022, 7, 22), Clock(19, 0)), Stamp(Date(2022, 7, 23), Clock(0, 0))))
  {
    SplitsColonTimes();
    ZoneSAST();
    ParseSpanOf(Date(2022, 7, 22), "19:00-00:00", "SAST", None, zones, TwentyFourHour, Reading("", "19:00", "", "-", "00:00", ""));
    Token19h00();
    Token00h00();
    OutcomeReads(Date(2022, 7, 22), TwentyFourHour, Reading("", "19:00", "", "-", "00:00", ""), "SAST", zones, Clock(19, 0), Clock(0, 0));
    Rollover20220722At1900To0000();
  }

  lemma ReadsSpacedColonTimes(zones: ZoneTable)
    requires "SAST" in zones
    ensures ParseSpan(Date(2022, 7, 22), "19:00 - 00:00", "SAST", None, zones)
              == Ok(Span(Stamp(Date(2022, 7, 22), Clock(19, 0)), Stamp(Date(2022, 7, 23), Clock(0, 0))))
  {
    SplitsSpacedColonTimes();
    ZoneSAST();
    ParseSpanOf(Date(2022, 7, 22), "19:00 - 00:00", "SAST", None, zones, TwentyFourHour, Reading("", "19:00", "", " - ", "00:00", ""));
    Token19h00();
    Token00h00();
    OutcomeReads(Date(2022, 7, 22), TwentyFourHour, Reading("", "19:00", "", " - ", "00:00", ""), "SAST", zones, Clock(19, 0), Clock(0, 0));
    Rollover20220722At1900To0000();
  }

  lemma ReadsOneLetterCode(zones: ZoneTable)
    requires "SAST" in zones
    ensures ParseSpan(Date(2022, 7, 22), "L 19:00 - 00:00", "SAST", None, zones)
              == Ok(Span(Stamp(Date(2022, 7, 22), Clock(19, 0)), Stamp(Date(2022, 7, 23), Clock(0, 0))))
  {
    SplitsOneLetterCode();
    ZoneSAST();
    ParseSpanOf(Date(2022, 7, 22), "L 19:00 - 00:00", "SAST", None, zones, TwentyFourHour, Reading("L ", "19:00", "", " - ", "00:00", ""));
    Token19h00();
    Token00h00();
    OutcomeReads(Date(2022, 7, 22), TwentyFourHour, Reading("L ", "19:00", "", " - ", "00:00", ""), "SAST", zones, Clock(19, 0), Clock(0, 0));
    Rollover20220722At1900To0000();
  }

  lemma ReadsTwoLetterCode(zones: ZoneTable)
    requires "SAST" in zones
    ensures ParseSpan(Date(2022, 7, 22), "LA 19:00 - 00:00", "SAST", None, zones)
              == Ok(Span(Stamp(Date(2022, 7, 22), Clock(19, 0)), Stamp(Date(2022, 7, 23), Clock(0, 0))))
  {
    SplitsTwoLetterCode();
    ZoneSAST();
    ParseSpanOf(Date(2022, 7, 22), "LA 19:00 - 00:00", "SAST", None, zones, TwentyFourHour, Reading("LA ", "19:00", "", " - ", "00:00", ""));
    Token19h00();
    Token00h00();
    OutcomeReads(Date(2022, 7, 22), TwentyFourHour, Reading("LA ", "19:00", "", " - ", "00:00", ""), "SAST", zones, Clock(19, 0), Clock(0, 0));
    Rollover20220722At1900To0000();
  }

  lemma ReadsMorningToEvening(zones: ZoneTable)
    requires "SAST" in zones
    ensures ParseSpan(Date(2022, 7, 22), "11:00 AM - 08:00 PM", "SAST", None, zones)
              == Ok(Span(Stamp(Date(2022, 7, 22), Clock(11, 0)), Stamp(Date(2022, 7, 22), Clock(20, 0))))
  {
    SplitsMorningToEvening();
    ZoneSAST();
    ParseSpanOf(Date(2022, 7, 22), "11:00 AM - 08:00 PM", "SAST", None, zones, TwelveHour, Reading("", "11:00", " AM", " - ", "08:00", " PM"));
    Token11h00SpacedAm();
    Token08h00SpacedPm();
    OutcomeReads(Date(2022, 7, 22), TwelveHour, Reading("", "11:00", " AM", " - ", "08:00", " PM"), "SAST", zones, Clock(11, 0), Clock(20, 0));
    Rollover20220722At1100To2000();
  }

  lemma ReadsOneLetterEvening(zones: ZoneTable)
    requires "SAST" in zones
    ensures ParseSpan(Date(2022, 7, 22), "L 7:00 PM - 12:00 AM", "SAST", None, zones)
              == Ok(Span(Stamp(Date(2022, 7, 22), Clock(19, 0)), Stamp(Date(2022, 7, 23), Clock(0, 0))))
  {
    SplitsOneLetterEvening();
    ZoneSAST();
    ParseSpanOf(Date(2022, 7, 22), "L 7:00 PM - 12:00 AM", "SAST", None, zones, TwelveHour, Reading("L ", "7:00", " PM", " - ", "12:00", " AM"));
    Token7h00SpacedPm();
    Token12h00SpacedAm();
    OutcomeReads(Date(2022, 7, 22), TwelveHour, Reading("L ", "7:00", " PM", " - ", "12:00", " AM"), "SAST", zones, Clock(19, 0), Clock(0, 0));
    Rollover20220722At1900To0000();
  }

  lemma ReadsTwoLetterEvening(zones: ZoneTable)
    requires "SAST" in zones
    ensures ParseSpan(Date(2022, 7, 22), "LA 7:00 PM - 12:00 AM", "SAST", None, zones)
              == Ok(Span(Stamp(Date(2022, 7, 22), Clock(19, 0)), Stamp(Date(2022, 7, 23), Clock(0, 0))))
  {
    SplitsTwoLetterEvening();
    ZoneSAST();
    ParseSpanOf(Date(2022, 7, 22), "LA 7:00 PM - 12:00 AM", "SAST", None, zones, TwelveHour, Reading("LA ", "7:00", " PM", " - ", "12:00", " AM"));
    Token7h00SpacedPm();
    Token12h00SpacedAm();
    OutcomeReads(Date(2022, 7, 22), TwelveHour, Reading("LA ", "7:00", " PM", " - ", "12:00", " AM"), "SAST", zones, Clock(19, 0), Clock(0, 0));
    Rollover20220722At1900To0000();
  }

  lemma ReadsUnspacedMarkers(zones: ZoneTable)
    requires "SAST" in zones
    ensures ParseSpan(Date(2022, 9, 26), "5:00PM - 02:00AM", "SAST", None, zones)
              == Ok(Span(Stamp(Date(2022, 9, 26), Clock(17, 0)), Stamp(Date(2022, 9, 27), Clock(2, 0))))
  {
    SplitsUnspacedMarkers();
    ZoneSAST();
    ParseSpanOf(Date(2022, 9, 26), "5:00PM - 02:00AM", "SAST", None, zones, TwelveHour, Reading("", "5:00", "PM", " - ", "02:00", "AM"));
    Token5h00Pm();
    Token02h00Am();
    OutcomeReads(Date(2022, 9, 26), TwelveHour, Reading("", "5:00", "PM", " - ", "02:00", "AM"), "SAST", zones, Clock(17, 0), Clock(2, 0));
    Rollover20220926At1700To0200();
  }

  lemma ReadsPlainDigitsInLondon(zones: ZoneTable)
    requires "Europe/London" in zones
    ensures ParseSpan(Date(2022, 7, 22), "1900-0000", "BST", None, zones)
              == Ok(Span(Stamp(Date(2022, 7, 22), Clock(19, 0)), Stamp(Date(2022, 7, 23), Clock(0, 0))))
  {
    SplitsPlainDigits();
    ZoneBST();
    ParseSpanOf(Date(2022, 7, 22), "1900-0000", "BST", None, zones, TwentyFourHour, Reading("", "1900", "", "-", "0000", ""));
    Token1900();
    Token0000();
    OutcomeReads(Date(2022, 7, 22), TwentyFourHour, Reading("", "1900", "", "-", "0000", ""), "Europe/London", zones, Clock(19, 0), Clock(0, 0));
    Rollover20220722At1900To0000();
  }

  lemma MovesPlainDigits(zones: ZoneTable)
    requires "Europe/London" in zones && "SAST" in zones
    requires zones["SAST"] - zones["Europe/London"] == 60
    ensures ParseSpan(Date(2022, 7, 22), "1900-0000", "BST", Some("SAST"), zones)
              == Ok(Span(Stamp(Date(2022, 7, 22), Clock(20, 0)), Stamp(Date(2022, 7, 23), Clock(1, 0))))
  {
    ReadsPlainDigitsInLondon(zones);
    ZoneSAST();
    TargetMovesBothEnds(Date(2022, 7, 22), "1900-0000", "BST", "SAST", zones, Span(Stamp(Date(2022, 7, 22), Clock(19, 0)), Stamp(Date(2022, 7, 23), Clock(0, 0))));
    Reproject20220722At1900To0000();
  }

  lemma ReadsSpacedDigitsInLondon(zones: ZoneTable)
    requires "Europe/London" in zones
    ensures ParseSpan(Date(2022, 7, 22), "1900 - 0000", "BST", None, zones)
              == Ok(Span(Stamp(Date(2022, 7, 22), Clock(19, 0)), Stamp(Date(2022, 7, 23), Clock(0, 0))))
  {
    SplitsSpacedDigits();
    ZoneBST();
    ParseSpanOf(Date(2022, 7, 22), "1900 - 0000", "BST", None, zones, TwentyFourHour, Reading("", "1900", "", " - ", "0000", ""));
    Token1900();
    Token0000();
    OutcomeReads(Date(2022, 7, 22), TwentyFourHour, Reading("", "1900", "", " - ", "0000", ""), "Europe/London", zones, Clock(19, 0), Clock(0, 0));
    Rollover20220722At1900To0000();
  }

  lemma MovesSpacedDigits(zones: ZoneTable)
    requires "Europe/London" in zones && "SAST" in zones
    requires zones["SAST"] - zones["Europe/London"] == 60
    ensures ParseSpan(Date(2022, 7, 22), "1900 - 0000", "BST", Some("SAST"), zones)
              == Ok(Span(Stamp(Date(2022, 7, 22), Clock(20, 0)), Stamp(Date(2022, 7, 23), Clock(1, 0))))
  {
    ReadsSpacedDigitsInLondon(zones);
    ZoneSAST();
    TargetMovesBothEnds(Date(2022, 7, 22), "1900 - 0000", "BST", "SAST", zones, Span(Stamp(Date(2022, 7, 22), Clock(19, 0)), Stamp(Date(2022, 7, 23), Clock(0, 0))));
    Reproject20220722At1900To0000();
  }

  lemma ReadsColonTimesInLondon(zones: ZoneTable)
    requires "Europe/London" in zones
    ensures ParseSpan(Date(2022, 7, 22), "19:00-00:00", "BST", None, zones)
              == Ok(Span(Stamp(Date(2022, 7, 22), Clock(19, 0)), Stamp(Date(2022, 7, 23), Clock(0, 0))))
  {
    SplitsColonTimes();
    ZoneBST();
    ParseSpanOf(Date(2022, 7, 22), "19:00-00:00", "BST", None, zones, TwentyFourHour, Reading("", "19:00", "", "-", "00:00", ""));
    Token19h00();
    Token00h00();
    OutcomeReads(Date(2022, 7, 22), TwentyFourHour, Reading("", "19:00", "", "-", "00:00", ""), "Europe/London", zones, Clock(19, 0), Clock(0, 0));
    Rollover20220722At1900To0000();
  }

  lemma MovesColonTimes(zones: ZoneTable)
    requires "Europe/London" in zones && "SAST" in zones
    requires zones["SAST"] - zones["Europe/London"] == 60
    ensures ParseSpan(Date(2022, 7, 22), "19:00-00:00", "BST", Some("SAST"), zones)
              == Ok(Span(Stamp(Date(2022, 7, 22), Clock(20, 0)), Stamp(Date(2022, 7, 23), Clock(1, 0))))
  {
    ReadsColonTimesInLondon(zones);
    ZoneSAST();
    TargetMovesBothEnds(Date(2022, 7, 22), "19:00-00:00", "BST", "SAST", zones, Span(Stamp(Date(2022, 7, 22), Clock(19, 0)), Stamp(Date(2022, 7, 23), Clock(0, 0))));
    Reproject20220722At1900To0000();
  }

  lemma ReadsSpacedColonTimesInLondon(zones: ZoneTable)
    requires "Europe/London" in zones
    ensures ParseSpan(Date(2022, 7, 22), "19:00 - 00:00", "BST", None, zones)
              == Ok(Span(Stamp(Date(2022, 7, 22), Clock(19, 0)), Stamp(Date(2022, 7, 23), Clock(0, 0))))
  {
    SplitsSpacedColonTimes();
    ZoneBST();
    ParseSpanOf(Date(2022, 7, 22), "19:00 - 00:00", "BST", None, zones, TwentyFourHour, Reading("", "19:00", "", " - ", "00:00", ""));
    Token19h00();
    Token00h00();
    OutcomeReads(Date(2022, 7, 22), TwentyFourHour, Reading("", "19:00", "", " - ", "00:00", ""), "Europe/London", zones, Clock(19, 0), Clock(0, 0));
    Rollover20220722At1900To0000();
  }

  lemma MovesSpacedColonTimes(zones: ZoneTable)
    requires "Europe/London" in zones && "SAST" in zones
    requires zones["SAST"] - zones["Europe/London"] == 60
    ensures ParseSpan(Date(2022, 7, 22), "19:00 - 00:00", "BST", Some("SAST"), zones)
              == Ok(Span(Stamp(Date(2022, 7, 22), Clock(20, 0)), Stamp(Date(2022, 7, 23), Clock(1, 0))))
  {
    ReadsSpacedColonTimesInLondon(zones);
    ZoneSAST();
    TargetMovesBothEnds(Date(2022, 7, 22), "19:00 - 00:00", "BST", "SAST", zones, Span(Stamp(Date(2022, 7, 22), Clock(19, 0)), Stamp(Date(2022, 7, 23), Clock(0, 0))));
    Reproject20220722At1900To0000();
  }

  lemma ReadsMorningToEveningInLondon(zones: ZoneTable)
    requires "Europe/London" in zones
    ensures ParseSpan(Date(2022, 7, 22), "11:00 AM - 08:00 PM", "BST", None, zones)
              == Ok(Span(Stamp(Date(2022, 7, 22), Clock(11, 0)), Stamp(Date(2022, 7, 22), Clock(20, 0))))
  {
    SplitsMorningToEvening();
    ZoneBST();
    ParseSpanOf(Date(2022, 7, 22), "11:00 AM - 08:00 PM", "BST", None, zones, TwelveHour, Reading("", "11:00", " AM", " - ", "08:00", " PM"));
    Token11h00SpacedAm();
    Token08h00SpacedPm();
    OutcomeReads(Date(2022, 7, 22), TwelveHour, Reading("", "11:00", " AM", " - ", "08:00", " PM"), "Europe/London", zones, Clock(11, 0), Clock(20, 0));
    Rollover20220722At1100To2000();
  }

  lemma MovesMorningToEvening(zones: ZoneTable)
    requires "Europe/London" in zones && "SAST" in zones
    requires zones["SAST"] - zones["Europe/London"] == 60
    ensures ParseSpan(Date(2022, 7, 22), "11:00 AM - 08:00 PM", "BST", Some("SAST"), zones)
              == Ok(Span(Stamp(Date(2022, 7, 22), Clock(12, 0)), Stamp(Date(2022, 7, 22), Clock(21, 0))))
  {
    ReadsMorningToEveningInLondon(zones);
    ZoneSAST();
    TargetMovesBothEnds(Date(2022, 7, 22), "11:00 AM - 08:00 PM", "BST", "SAST", zones, Span(Stamp(Date(2022, 7, 22), Clock(11, 0)), Stamp(Date(2022, 7, 22), Clock(20, 0))));
    Reproject20220722At1100To2000();
  }

  lemma ReadsOneLetterCodeInLondon(zones: ZoneTable)
    requires "Europe/London" in zones
    ensures ParseSpan(Date(2022, 7, 22), "L 19:00 - 00:00", "BST", None, zones)
              == Ok(Span(Stamp(Date(2022, 7, 22), Clock(19, 0)), Stamp(Date(2022, 7, 23), Clock(0, 0))))
  {
    SplitsOneLetterCode();
    ZoneBST();
    ParseSpanOf(Date(2022, 7, 22), "L 19:00 - 00:00", "BST", None, zones, TwentyFourHour, Reading("L ", "19:00", "", " - ", "00:00", ""));
    Token19h00();
    Token00h00();
    OutcomeReads(Date(2022, 7, 22), TwentyFourHour, Reading("L ", "19:00", "", " - ", "00:00", ""), "Europe/London", zones, Clock(19, 0), Clock(0, 0));
    Rollover20220722At1900To0000();
  }

  lemma MovesOneLetterCode(zones: ZoneTable)
    requires "Europe/London" in zones && "SAST" in zones
    requires zones["SAST"] - zones["Europe/London"] == 60
    ensures ParseSpan(Date(2022, 7, 22), "L 19:00 - 00:00", "BST", Some("SAST"), zones)
              == Ok(Span(Stamp(Date(2022, 7, 22), Clock(20, 0)), Stamp(Date(2022, 7, 23), Clock(1, 0))))
  {
    ReadsOneLetterCodeInLondon(zones);
    ZoneSAST();
    TargetMovesBothEnds(Date(2022, 7, 22), "L 19:00 - 00:00", "BST", "SAST", zones, Span(Stamp(Date(2022, 7, 22), Clock(19, 0)), Stamp(Date(2022, 7, 23), Clock(0, 0))));
    Reproject20220722At1900To0000();
  }

  lemma ReadsTwoLetterCodeInLondon(zones: ZoneTable)
    requires "Europe/London" in zones
    ensures ParseSpan(Date(2022, 7, 22), "LA 19:00 - 00:00", "BST", None, zones)
              == Ok(Span(Stamp(Date(2022, 7, 22), Clock(19, 0)), Stamp(Date(2022, 7, 23), Clock(0, 0))))
  {
    SplitsTwoLetterCode();
    ZoneBST();
    ParseSpanOf(Date(2022, 7, 22), "LA 19:00 - 00:00", "BST", None, zones, TwentyFourHour, Reading("LA ", "19:00", "", " - ", "00:00", ""));
    Token19h00();
    Token00h00();
    OutcomeReads(Date(2022, 7, 22), TwentyFourHour, Reading("LA ", "19:00", "", " - ", "00:00", ""), "Europe/London", zones, Clock(19, 0), Clock(0, 0));
    Rollover20220722At1900To0000();
  }

  lemma MovesTwoLetterCode(zones: ZoneTable)
    requires "Europe/London" in zones && "SAST" in zones
    requires zones["SAST"] - zones["Europe/London"] == 60
    ensures ParseSpan(Date(2022, 7, 22), "LA 19:00 - 00:00", "BST", Some("SAST"), zones)
              == Ok(Span(Stamp(Date(2022, 7, 22), Clock(20, 0)), Stamp(Date(2022, 7, 23), Clock(1, 0))))
  {
    ReadsTwoLetterCodeInLondon(zones);
    ZoneSAST();
    TargetMovesBothEnds(Date(2022, 7, 22), "LA 19:00 - 00:00", "BST", "SAST", zones, Span(Stamp(Date(2022, 7, 22), Clock(19, 0)), Stamp(Date(2022, 7, 23), Clock(0, 0))));
    Reproject20220722At1900To0000();
  }

  lemma ReadsOneLetterEveningInLondon(zones: ZoneTable)
    requires "Europe/London" in zones
    ensures ParseSpan(Date(2022, 7, 22), "L 7:00 PM - 12:00 AM", "BST", None, zones)
              == Ok(Span(Stamp(Date(2022, 7, 22), Clock(19, 0)), Stamp(Date(2022, 7, 23), Clock(0, 0))))
  {
    SplitsOneLetterEvening();
    ZoneBST();
    ParseSpanOf(Date(2022, 7, 22), "L 7:00 PM - 12:00 AM", "BST", None, zones, TwelveHour, Reading("L ", "7:00", " PM", " - ", "12:00", " AM"));
    Token7h00SpacedPm();
    Token12h00SpacedAm();
    OutcomeReads(Date(2022, 7, 22), TwelveHour, Reading("L ", "7:00", " PM", " - ", "12:00", " AM"), "Europe/London", zones, Clock(19, 0), Clock(0, 0));
    Rollover20220722At1900To0000();
  }

  lemma MovesOneLetterEvening(zones: ZoneTable)
    requires "Europe/London" in zones && "SAST" in zones
    requires zones["SAST"] - zones["Europe/London"] == 60
    ensures ParseSpan(Date(2022, 7, 22), "L 7:00 PM - 12:00 AM", "BST", Some("SAST"), zones)
              == Ok(Span(Stamp(Date(2022, 7, 22), Clock(20, 0)), Stamp(Date(2022, 7, 23), Clock(1, 0))))
  {
    ReadsOneLetterEveningInLondon(zones);
    ZoneSAST();
    TargetMovesBothEnds(Date(2022, 7, 22), "L 7:00 PM - 12:00 AM", "BST", "SAST", zones, Span(Stamp(Date(2022, 7, 22), Clock(19, 0)), Stamp(Date(2022, 7, 23), Clock(0, 0))));
    Reproject20220722At1900To0000();
  }

  lemma ReadsTwoLetterEveningInLondon(zones: ZoneTable)
    requires "Europe/London" in zones
    ensures ParseSpan(Date(2022, 7, 22), "LA 7:00 PM - 12:00 AM", "BST", None, zones)
              == Ok(Span(Stamp(Date(2022, 7, 22), Clock(19, 0)), Stamp(Date(2022, 7, 23), Clock(0, 0))))
  {
    SplitsTwoLetterEvening();
    ZoneBST();
    ParseSpanOf(Date(2022, 7, 22), "LA 7:00 PM - 12:00 AM", "BST", None, zones, TwelveHour, Reading("LA ", "7:00", " PM", " - ", "12:00", " AM"));
    Token7h00SpacedPm();
    Token12h00SpacedAm();
    OutcomeReads(Date(2022, 7, 22), TwelveHour, Reading("LA ", "7:00", " PM", " - ", "12:00", " AM"), "Europe/London", zones, Clock(19, 0), Clock(0, 0));
    Rollover20220722At1900To0000();
  }

  lemma MovesTwoLetterEvening(zones: ZoneTable)
    requires "Europe/London" in zones && "SAST" in zones
    requires zones["SAST"] - zones["Europe/London"] == 60
    ensures ParseSpan(Date(2022, 7, 22), "LA 7:00 PM - 12:00 AM", "BST", Some("SAST"), zones)
              == Ok(Span(Stamp(Date(2022, 7, 22), Clock(20, 0)), Stamp(Date(2022, 7, 23), Clock(1, 0))))
  {
    ReadsTwoLetterEveningInLondon(zones);
    ZoneSAST();
    TargetMovesBothEnds(Date(2022, 7, 22), "LA 7:00 PM - 12:00 AM", "BST", "SAST", zones, Span(Stamp(Date(2022, 7, 22), Clock(19, 0)), Stamp(Date(2022, 7, 23), Clock(0, 0))));
    Reproject20220722At1900To0000();
  }

  lemma ReadsShortEveningInLondon(zones: ZoneTable)
    requires "Europe/London" in zones
    ensures ParseSpan(Date(2022, 7, 22), "E 10:00 AM - 7:00 PM", "BST", None, zones)
              == Ok(Span(Stamp(Date(2022, 7, 22), Clock(10, 0)), Stamp(Date(2022, 7, 22), Clock(19, 0))))
  {
    SplitsShortEvening();
    ZoneBST();
    ParseSpanOf(Date(2022, 7, 22), "E 10:00 AM - 7:00 PM", "BST", None, zones, TwelveHour, Reading("E ", "10:00", " AM", " - ", "7:00", " PM"));
    Token10h00SpacedAm();
    Token7h00SpacedPm();
    OutcomeReads(Date(2022, 7, 22), TwelveHour, Reading("E ", "10:00", " AM", " - ", "7:00", " PM"), "Europe/London", zones, Clock(10, 0), Clock(19, 0));
    Rollover20220722At1000To1900();
  }

  lemma MovesShortEvening(zones: ZoneTable)
    requires "Europe/London" in zones && "SAST" in zones
    requires zones["SAST"] - zones["Europe/London"] == 60
    ensures ParseSpan(Date(2022, 7, 22), "E 10:00 AM - 7:00 PM", "BST", Some("SAST"), zones)
              == Ok(Span(Stamp(Date(2022, 7, 22), Clock(11, 0)), Stamp(Date(2022, 7, 22), Clock(20, 0))))
  {
    ReadsShortEveningInLondon(zones);
    ZoneSAST();
    TargetMovesBothEnds(Date(2022, 7, 22), "E 10:00 AM - 7:00 PM", "BST", "SAST", zones, Span(Stamp(Date(2022, 7, 22), Clock(10, 0)), Stamp(Date(2022, 7, 22), Clock(19, 0))));
    Reproject20220722At1000To1900();
  }

  lemma ReadsPaddedHoursInLondon(zones: ZoneTable)
    requires "Europe/London" in zones
    ensures ParseSpan(Date(2022, 7, 22), "DY 08:00 AM - 06:00 PM", "BST", None, zones)
              == Ok(Span(Stamp(Date(2022, 7, 22), Clock(8, 0)), Stamp(Date(2022, 7, 22), Clock(18, 0))))
  {
    SplitsPaddedHours();
    ZoneBST();
    ParseSpanOf(Date(2022, 7, 22), "DY 08:00 AM - 06:00 PM", "BST", None, zones, TwelveHour, Reading("DY ", "08:00", " AM", " - ", "06:00", " PM"));
    Token08h00SpacedAm();
    Token06h00SpacedPm();
    OutcomeReads(Date(2022, 7, 22), TwelveHour, Reading("DY ", "08:00", " AM", " - ", "06:00", " PM"), "Europe/London", zones, Clock(8, 0), Clock(18, 0));
    Rollover20220722At0800To1800();
  }

  lemma MovesPaddedHours(zones: ZoneTable)
    requires "Europe/London" in zones && "SAST" in zones
    requires zones["SAST"] - zones["Europe/London"] == 60
    ensures ParseSpan(Date(2022, 7, 22), "DY 08:00 AM - 06:00 PM", "BST", Some("SAST"), zones)
              == Ok(Span(Stamp(Date(2022, 7, 22), Clock(9, 0)), Stamp(Date(2022, 7, 22), Clock(19, 0))))
  {
    ReadsPaddedHoursInLondon(zones);
    ZoneSAST();
    TargetMovesBothEnds(Date(2022, 7, 22), "DY 08:00 AM - 06:00 PM", "BST", "SAST", zones, Span(Stamp(Date(2022, 7, 22), Clock(8, 0)), Stamp(Date(2022, 7, 22), Clock(18, 0))));
    Reproject20220722At0800To1800();
  }

  lemma ReadsShortHoursInLondon(zones: ZoneTable)
    requires "Europe/London" in zones
    ensures ParseSpan(Date(2022, 7, 22), "E 9:00 AM - 6:00 PM", "BST", None, zones)
              == Ok(Span(Stamp(Date(2022, 7, 22), Clock(9, 0)), Stamp(Date(2022, 7, 22), Clock(18, 0))))
  {
    SplitsShortHours();
    ZoneBST();
    ParseSpanOf(Date(2022, 7, 22), "E 9:00 AM - 6:00 PM", "BST", None, zones, TwelveHour, Reading("E ", "9:00", " AM", " - ", "6:00", " PM"));
    Token9h00SpacedAm();
    Token6h00SpacedPm();
    OutcomeReads(Date(2022, 7, 22), TwelveHour, Reading("E ", "9:00", " AM", " - ", "6:00", " PM"), "Europe/London", zones, Clock(9, 0), Clock(18, 0));
    Rollover20220722At0900To1800();
  }

  lemma MovesShortHours(zones: ZoneTable)
    requires "Europe/London" in zones && "SAST" in zones
    requires zones["SAST"] - zones["Europe/London"] == 60
    ensures ParseSpan(Date(2022, 7, 22), "E 9:00 AM - 6:00 PM", "BST", Some("SAST"), zones)
              == Ok(Span(Stamp(Date(2022, 7, 22), Clock(10, 0)), Stamp(Date(2022, 7, 22), Clock(19, 0))))
  {
    ReadsShortHoursInLondon(zones);
    ZoneSAST();
    TargetMovesBothEnds(Date(2022, 7, 22), "E 9:00 AM - 6:00 PM", "BST", "SAST", zones, Span(Stamp(Date(2022, 7, 22), Clock(9, 0)), Stamp(Date(2022, 7, 22), Clock(18, 0))));
    Reproject20220722At0900To1800();
  }

  lemma ReadsPastMidnightInLondon(zones: ZoneTable)
    requires "Europe/London" in zones
    ensures ParseSpan(Date(2022, 7, 22), "L 2:00 PM - 11:00 PM", "BST", None, zones)
              == Ok(Span(Stamp(Date(2022, 7, 22), Clock(14, 0)), Stamp(Date(2022, 7, 22), Clock(23, 0))))
  {
    SplitsPastMidnight();
    ZoneBST();
    ParseSpanOf(Date(2022, 7, 22), "L 2:00 PM - 11:00 PM", "BST", None, zones, TwelveHour, Reading("L ", "2:00", " PM", " - ", "11:00", " PM"));
    Token2h00SpacedPm();
    Token11h00SpacedPm();
    OutcomeReads(Date(2022, 7, 22), TwelveHour, Reading("L ", "2:00", " PM", " - ", "11:00", " PM"), "Europe/London", zones, Clock(14, 0), Clock(23, 0));
    Rollover20220722At1400To2300();
  }

  lemma MovesPastMidnight(zones: ZoneTable)
    requires "Europe/London" in zones && "SAST" in zones
    requires zones["SAST"] - zones["Europe/London"] == 60
    ensures ParseSpan(Date(2022, 7, 22), "L 2:00 PM - 11:00 PM", "BST", Some("SAST"), zones)
              == Ok(Span(Stamp(Date(2022, 7, 22), Clock(15, 0)), Stamp(Date(2022, 7, 23), Clock(0, 0))))
  {
    ReadsPastMidnightInLondon(zones);
    ZoneSAST();
    TargetMovesBothEnds(Date(2022, 7, 22), "L 2:00 PM - 11:00 PM", "BST", "SAST", zones, Span(Stamp(Date(2022, 7, 22), Clock(14, 0)), Stamp(Date(2022, 7, 22), Clock(23, 0))));
    Reproject20220722At1400To2300();
  }

  lemma ReadsUnspacedMarkersInLondon(zones: ZoneTable)
    requires "Europe/London" in zones
    ensures ParseSpan(Date(2022, 9, 26), "5:00PM - 02:00AM", "BST", None, zones)
              == Ok(Span(Stamp(Date(2022, 9, 26), Clock(17, 0)), Stamp(Date(2022, 9, 27), Clock(2, 0))))
  {
    SplitsUnspacedMarkers();
    ZoneBST();
    ParseSpanOf(Date(2022, 9, 26), "5:00PM - 02:00AM", "BST", None, zones, TwelveHour, Reading("", "5:00", "PM", " - ", "02:00", "AM"));
    Token5h00Pm();
    Token02h00Am();
    OutcomeReads(Date(2022, 9, 26), TwelveHour, Reading("", "5:00", "PM", " - ", "02:00", "AM"), "Europe/London", zones, Clock(17, 0), Clock(2, 0));
    Rollover20220926At1700To0200();
  }

  lemma MovesUnspacedMarkers(zones: ZoneTable)
    requires "Europe/London" in zones && "SAST" in zones
    requires zones["SAST"] - zones["Europe/London"] == 60
    ensures ParseSpan(Date(2022, 9, 26), "5:00PM - 02:00AM", "BST", Some("SAST"), zones)
              == Ok(Span(Stamp(Date(2022, 9, 26), Clock(18, 0)), Stamp(Date(2022, 9, 27), Clock(3, 0))))
  {
    ReadsUnspacedMarkersInLondon(zones);
    ZoneSAST();
    TargetMovesBothEnds(Date(2022, 9, 26), "5:00PM - 02:00AM", "BST", "SAST", zones, Span(Stamp(Date(2022, 9, 26), Clock(17, 0)), Stamp(Date(2022, 9, 27), Clock(2, 0))));
    Reproject20220926At1700To0200();
  }

  // Single facts about concrete values, each established on its own.

  lemma ConcatPlainDigits()
    ensures "" + ("1900" + ("" + ("-" + ("0000" + "")))) == "1900-0000"
  {
  }

  lemma JoinsPlainDigits()
    ensures Joined(Reading("", "1900", "", "-", "0000", "")) == "1900-0000"
  {
    ConcatPlainDigits();
  }

  lemma CodeEmpty()
    ensures PrefixOk("")
  {
  }

  lemma StartToken1900()
    ensures StartTokenOk("1900")
  {
  }

  lemma MarkerNone()
    ensures MarkerOk(TwentyFourHour, "")
  {
  }

  lemma SeparatorHyphen()
    ensures SeparatorOk("-")
  {
  }

  lemma EndToken0000()
    ensures EndTokenOk("0000")
  {
  }

  lemma SplitsPlainDigits()
    ensures Matches(TwentyFourHour, "1900-0000", Reading("", "1900", "", "-", "0000", ""))
  {
    CodeEmpty();
    StartToken1900();
    MarkerNone();
    SeparatorHyphen();
    EndToken0000();
    MarkerNone();
    JoinsPlainDigits();
  }

  lemma ZoneSAST()
    ensures ResolveZone("SAST") == "SAST"
  {
  }

  lemma Cut1900()
    ensures "1900"[..2] + ":" + "1900"[2..] == "19:00"
  {
    assert "1900"[..2] == "19";
    assert "1900"[2..] == "00";
  }

  lemma Normalize1900()
    ensures Normalize("1900") == "19:00"
  {
    NormalizeFourDigits("1900");
    Cut1900();
  }

  lemma Reads19h00()
    ensures ReadClock("19:00") == Some(Clock(19, 0))
  {
  }

  lemma Token19h00()
    ensures TokenClock(TwentyFourHour, "19:00", "") == Some(Clock(19, 0))
  {
    Reads19h00();
  }

  lemma Token1900()
    ensures TokenClock(TwentyFourHour, "1900", "") == Some(Clock(19, 0))
  {
    Normalize1900();
    Token19h00();
  }

  lemma Cut0000()
    ensures "0000"[..2] + ":" + "0000"[2..] == "00:00"
  {
    assert "0000"[..2] == "00";
    assert "0000"[2..] == "00";
  }

  lemma Normalize0000()
    ensures Normalize("0000") == "00:00"
  {
    NormalizeFourDigits("0000");
    Cut0000();
  }

  lemma Reads00h00()
    ensures ReadClock("00:00") == Some(Clock(0, 0))
  {
  }

  lemma Token00h00()
    ensures TokenClock(TwentyFourHour, "00:00", "") == Some(Clock(0, 0))
  {
    Reads00h00();
  }

  lemma Token0000()
    ensures TokenClock(TwentyFourHour, "0000", "") == Some(Clock(0, 0))
  {
    Normalize0000();
    Token00h00();
  }

  lemma Earlier20220722At0000Than1900()
    ensures Minutes(Stamp(Date(2022, 7, 22), Clock(0, 0))) < Minutes(Stamp(Date(2022, 7, 22), Clock(19, 0)))
  {
  }

  lemma DayAfter20220722()
    ensures NextDay(Date(2022, 7, 22)) == Date(2022, 7, 23)
  {
  }

  lemma DayAfter20220722At0000()
    ensures AddDay(Stamp(Date(2022, 7, 22), Clock(0, 0))) == Stamp(Date(2022, 7, 23), Clock(0, 0))
  {
    DayAfter20220722();
  }

  lemma Rollover20220722At1900To0000()
    ensures Rollover(Stamp(Date(2022, 7, 22), Clock(19, 0)), Stamp(Date(2022, 7, 22), Clock(0, 0))) == Stamp(Date(2022, 7, 23), Clock(0, 0))
  {
    Earlier20220722At0000Than1900();
    DayAfter20220722At0000();
  }

  lemma Text20220722At1900()
    ensures "2022" + "-" + "07" + "-" + "22" + " " + "19" + ":" + "00" + ":00" == "2022-07-22 19:00:00"
  {
  }

  lemma Digits2()
    ensures Digits(2) == "2"
  {
  }

  lemma Digits20()
    ensures Digits(20) == "20"
  {
    Digits2();
    assert Digits(20) == Digits(2) + [DigitChar(0)];
  }

  lemma Digits202()
    ensures Digits(202) == "202"
  {
    Digits20();
    assert Digits(202) == Digits(20) + [DigitChar(2)];
  }

  lemma Digits2022()
    ensures Digits(2022) == "2022"
  {
    Digits202();
    assert Digits(2022) == Digits(202) + [DigitChar(2)];
  }

  lemma Year2022()
    ensures YearText(2022) == "2022"
  {
    Digits2022();
  }

  lemma TwoDigits07()
    ensures Pad(7, 2) == "07"
  {
  }

  lemma TwoDigits22()
    ensures Pad(22, 2) == "22"
  {
  }

  lemma TwoDigits19()
    ensures Pad(19, 2) == "19"
  {
  }

  lemma TwoDigits00()
    ensures Pad(0, 2) == "00"
  {
  }

  lemma Render20220722At1900()
    ensures Render(Stamp(Date(2022, 7, 22), Clock(19, 0))) == "2022-07-22 19:00:00"
  {
    Year2022();
    TwoDigits07();
    TwoDigits22();
    TwoDigits19();
    TwoDigits00();
    Text20220722At1900();
  }

  lemma Text20220723At0000()
    ensures "2022" + "-" + "07" + "-" + "23" + " " + "00" + ":" + "00" + ":00" == "2022-07-23 00:00:00"
  {
  }

  lemma TwoDigits23()
    ensures Pad(23, 2) == "23"
  {
  }

  lemma Render20220723At0000()
    ensures Render(Stamp(Date(2022, 7, 23), Clock(0, 0))) == "2022-07-23 00:00:00"
  {
    Year2022();
    TwoDigits07();
    TwoDigits23();
    TwoDigits00();
    TwoDigits00();
    Text20220723At0000();
  }

  lemma ConcatSpacedDigits()
    ensures "" + ("1900" + ("" + (" - " + ("0000" + "")))) == "1900 - 0000"
  {
  }

  lemma JoinsSpacedDigits()
    ensures Joined(Reading("", "1900", "", " - ", "0000", "")) == "1900 - 0000"
  {
    ConcatSpacedDigits();
  }

  lemma SeparatorSpacedHyphen()
    ensures SeparatorOk(" - ")
  {
  }

  lemma SplitsSpacedDigits()
    ensures Matches(TwentyFourHour, "1900 - 0000", Reading("", "1900", "", " - ", "0000", ""))
  {
    CodeEmpty();
    StartToken1900();
    MarkerNone();
    SeparatorSpacedHyphen();
    EndToken0000();
    MarkerNone();
    JoinsSpacedDigits();
  }

  lemma ConcatColonTimes()
    ensures "" + ("19:00" + ("" + ("-" + ("00:00" + "")))) == "19:00-00:00"
  {
  }

  lemma JoinsColonTimes()
    ensures Joined(Reading("", "19:00", "", "-", "00:00", "")) == "19:00-00:00"
  {
    ConcatColonTimes();
  }

  lemma StartToken19h00()
    ensures StartTokenOk("19:00")
  {
  }

  lemma EndToken00h00()
    ensures EndTokenOk("00:00")
  {
  }

  lemma SplitsColonTimes()
    ensures Matches(TwentyFourHour, "19:00-00:00", Reading("", "19:00", "", "-", "00:00", ""))
  {
    CodeEmpty();
    StartToken19h00();
    MarkerNone();
    SeparatorHyphen();
    EndToken00h00();
    MarkerNone();
    JoinsColonTimes();
  }

  lemma ConcatSpacedColonTimes()
    ensures "" + ("19:00" + ("" + (" - " + ("00:00" + "")))) == "19:00 - 00:00"
  {
  }

  lemma JoinsSpacedColonTimes()
    ensures Joined(Reading("", "19:00", "", " - ", "00:00", "")) == "19:00 - 00:00"
  {
    ConcatSpacedColonTimes();
  }

  lemma SplitsSpacedColonTimes()
    ensures Matches(TwentyFourHour, "19:00 - 00:00", Reading("", "19:00", "", " - ", "00:00", ""))
  {
    CodeEmpty();
    StartToken19h00();
    MarkerNone();
    SeparatorSpacedHyphen();
    EndToken00h00();
    MarkerNone();
    JoinsSpacedColonTimes();
  }

  lemma ConcatOneLetterCode()
    ensures "L " + ("19:00" + ("" + (" - " + ("00:00" + "")))) == "L 19:00 - 00:00"
  {
  }

  lemma JoinsOneLetterCode()
    ensures Joined(Reading("L ", "19:00", "", " - ", "00:00", "")) == "L 19:00 - 00:00"
  {
    ConcatOneLetterCode();
  }

  lemma CodeL()
    ensures PrefixOk("L ")
  {
  }

  lemma SplitsOneLetterCode()
    ensures Matches(TwentyFourHour, "L 19:00 - 00:00", Reading("L ", "19:00", "", " - ", "00:00", ""))
  {
    CodeL();
    StartToken19h00();
    MarkerNone();
    SeparatorSpacedHyphen();
    EndToken00h00();
    MarkerNone();
    JoinsOneLetterCode();
  }

  lemma ConcatTwoLetterCode()
    ensures "LA " + ("19:00" + ("" + (" - " + ("00:00" + "")))) == "LA 19:00 - 00:00"
  {
  }

  lemma JoinsTwoLetterCode()
    ensures Joined(Reading("LA ", "19:00", "", " - ", "00:00", "")) == "LA 19:00 - 00:00"
  {
    ConcatTwoLetterCode();
  }

  lemma CodeLA()
    ensures PrefixOk("LA ")
  {
  }

  lemma SplitsTwoLetterCode()
    ensures Matches(TwentyFourHour, "LA 19:00 - 00:00", Reading("LA ", "19:00", "", " - ", "00:00", ""))
  {
    CodeLA();
    StartToken19h00();
    MarkerNone();
    SeparatorSpacedHyphen();
    EndToken00h00();
    MarkerNone();
    JoinsTwoLetterCode();
  }

  lemma ConcatMorningToEvening()
    ensures "" + ("11:00" + (" AM" + (" - " + ("08:00" + " PM")))) == "11:00 AM - 08:00 PM"
  {
  }

  lemma JoinsMorningToEvening()
    ensures Joined(Reading("", "11:00", " AM", " - ", "08:00", " PM")) == "11:00 AM - 08:00 PM"
  {
    ConcatMorningToEvening();
  }

  lemma StartToken11h00()
    ensures StartTokenOk("11:00")
  {
  }

  lemma MarkerSpacedAm()
    ensures MarkerOk(TwelveHour, " AM")
  {
  }

  lemma EndToken08h00()
    ensures EndTokenOk("08:00")
  {
  }

  lemma MarkerSpacedPm()
    ensures MarkerOk(TwelveHour, " PM")
  {
  }

  lemma SplitsMorningToEvening()
    ensures Matches(TwelveHour, "11:00 AM - 08:00 PM", Reading("", "11:00", " AM", " - ", "08:00", " PM"))
  {
    CodeEmpty();
    StartToken11h00();
    MarkerSpacedAm();
    SeparatorSpacedHyphen();
    EndToken08h00();
    MarkerSpacedPm();
    JoinsMorningToEvening();
  }

  lemma Reads11h00()
    ensures ReadClock("11:00") == Some(Clock(11, 0))
  {
  }

  lemma Token11h00SpacedAm()
    ensures TokenClock(TwelveHour, "11:00", " AM") == Some(Clock(11, 0))
  {
    Reads11h00();
  }

  lemma Reads08h00()
    ensures ReadClock("08:00") == Some(Clock(8, 0))
  {
  }

  lemma Token08h00SpacedPm()
    ensures TokenClock(TwelveHour, "08:00", " PM") == Some(Clock(20, 0))
  {
    Reads08h00();
  }

  lemma NotEarlier20220722At2000Than1100()
    ensures Minutes(Stamp(Date(2022, 7, 22), Clock(11, 0))) <= Minutes(Stamp(Date(2022, 7, 22), Clock(20, 0)))
  {
  }

  lemma Rollover20220722At1100To2000()
    ensures Rollover(Stamp(Date(2022, 7, 22), Clock(11, 0)), Stamp(Date(2022, 7, 22), Clock(20, 0))) == Stamp(Date(2022, 7, 22), Clock(20, 0))
  {
    NotEarlier20220722At2000Than1100();
  }

  lemma Text20220722At1100()
    ensures "2022" + "-" + "07" + "-" + "22" + " " + "11" + ":" + "00" + ":00" == "2022-07-22 11:00:00"
  {
  }

  lemma TwoDigits11()
    ensures Pad(11, 2) == "11"
  {
  }

  lemma Render20220722At1100()
    ensures Render(Stamp(Date(2022, 7, 22), Clock(11, 0))) == "2022-07-22 11:00:00"
  {
    Year2022();
    TwoDigits07();
    TwoDigits22();
    TwoDigits11();
    TwoDigits00();
    Text20220722At1100();
  }

  lemma Text20220722At2000()
    ensures "2022" + "-" + "07" + "-" + "22" + " " + "20" + ":" + "00" + ":00" == "2022-07-22 20:00:00"
  {
  }

  lemma TwoDigits20()
    ensures Pad(20, 2) == "20"
  {
  }

  lemma Render20220722At2000()
    ensures Render(Stamp(Date(2022, 7, 22), Clock(20, 0))) == "2022-07-22 20:00:00"
  {
    Year2022();
    TwoDigits07();
    TwoDigits22();
    TwoDigits20();
    TwoDigits00();
    Text20220722At2000();
  }

  lemma ConcatOneLetterEvening()
    ensures "L " + ("7:00" + (" PM" + (" - " + ("12:00" + " AM")))) == "L 7:00 PM - 12:00 AM"
  {
  }

  lemma JoinsOneLetterEvening()
    ensures Joined(Reading("L ", "7:00", " PM", " - ", "12:00", " AM")) == "L 7:00 PM - 12:00 AM"
  {
    ConcatOneLetterEvening();
  }

  lemma StartToken7h00()
    ensures StartTokenOk("7:00")
  {
  }

  lemma EndToken12h00()
    ensures EndTokenOk("12:00")
  {
  }

  lemma SplitsOneLetterEvening()
    ensures Matches(TwelveHour, "L 7:00 PM - 12:00 AM", Reading("L ", "7:00", " PM", " - ", "12:00", " AM"))
  {
    CodeL();
    StartToken7h00();
    MarkerSpacedPm();
    SeparatorSpacedHyphen();
    EndToken12h00();
    MarkerSpacedAm();
    JoinsOneLetterEvening();
  }

  lemma Reads7h00()
    ensures ReadClock("7:00") == Some(Clock(7, 0))
  {
  }

  lemma Token7h00SpacedPm()
    ensures TokenClock(TwelveHour, "7:00", " PM") == Some(Clock(19, 0))
  {
    Reads7h00();
  }

  lemma Reads12h00()
    ensures ReadClock("12:00") == Some(Clock(12, 0))
  {
  }

  lemma Token12h00SpacedAm()
    ensures TokenClock(TwelveHour, "12:00", " AM") == Some(Clock(0, 0))
  {
    Reads12h00();
  }

  lemma ConcatTwoLetterEvening()
    ensures "LA " + ("7:00" + (" PM" + (" - " + ("12:00" + " AM")))) == "LA 7:00 PM - 12:00 AM"
  {
  }

  lemma JoinsTwoLetterEvening()
    ensures Joined(Reading("LA ", "7:00", " PM", " - ", "12:00", " AM")) == "LA 7:00 PM - 12:00 AM"
  {
    ConcatTwoLetterEvening();
  }

  lemma SplitsTwoLetterEvening()
    ensures Matches(TwelveHour, "LA 7:00 PM - 12:00 AM", Reading("LA ", "7:00", " PM", " - ", "12:00", " AM"))
  {
    CodeLA();
    StartToken7h00();
    MarkerSpacedPm();
    SeparatorSpacedHyphen();
    EndToken12h00();
    MarkerSpacedAm();
    JoinsTwoLetterEvening();
  }

  lemma ConcatUnspacedMarkers()
    ensures "" + ("5:00" + ("PM" + (" - " + ("02:00" + "AM")))) == "5:00PM - 02:00AM"
  {
  }

  lemma JoinsUnspacedMarkers()
    ensures Joined(Reading("", "5:00", "PM", " - ", "02:00", "AM")) == "5:00PM - 02:00AM"
  {
    ConcatUnspacedMarkers();
  }

  lemma StartToken5h00()
    ensures StartTokenOk("5:00")
  {
  }

  lemma MarkerPm()
    ensures MarkerOk(TwelveHour, "PM")
  {
  }

  lemma EndToken02h00()
    ensures EndTokenOk("02:00")
  {
  }

  lemma MarkerAm()
    ensures MarkerOk(TwelveHour, "AM")
  {
  }

  lemma SplitsUnspacedMarkers()
    ensures Matches(TwelveHour, "5:00PM - 02:00AM", Reading("", "5:00", "PM", " - ", "02:00", "AM"))
  {
    CodeEmpty();
    StartToken5h00();
    MarkerPm();
    SeparatorSpacedHyphen();
    EndToken02h00();
    MarkerAm();
    JoinsUnspacedMarkers();
  }

  lemma Reads5h00()
    ensures ReadClock("5:00") == Some(Clock(5, 0))
  {
  }

  lemma Token5h00Pm()
    ensures TokenClock(TwelveHour, "5:00", "PM") == Some(Clock(17, 0))
  {
    Reads5h00();
  }

  lemma Reads02h00()
    ensures ReadClock("02:00") == Some(Clock(2, 0))
  {
  }

  lemma Token02h00Am()
    ensures TokenClock(TwelveHour, "02:00", "AM") == Some(Clock(2, 0))
  {
    Reads02h00();
  }

  lemma Earlier20220926At0200Than1700()
    ensures Minutes(Stamp(Date(2022, 9, 26), Clock(2, 0))) < Minutes(Stamp(Date(2022, 9, 26), Clock(17, 0)))
  {
  }

  lemma DayAfter20220926()
    ensures NextDay(Date(2022, 9, 26)) == Date(2022, 9, 27)
  {
  }

  lemma DayAfter20220926At0200()
    ensures AddDay(Stamp(Date(2022, 9, 26), Clock(2, 0))) == Stamp(Date(2022, 9, 27), Clock(2, 0))
  {
    DayAfter20220926();
  }

  lemma Rollover20220926At1700To0200()
    ensures Rollover(Stamp(Date(2022, 9, 26), Clock(17, 0)), Stamp(Date(2022, 9, 26), Clock(2, 0))) == Stamp(Date(2022, 9, 27), Clock(2, 0))
  {
    Earlier20220926At0200Than1700();
    DayAfter20220926At0200();
  }

  lemma Text20220926At1700()
    ensures "2022" + "-" + "09" + "-" + "26" + " " + "17" + ":" + "00" + ":00" == "2022-09-26 17:00:00"
  {
  }

  lemma TwoDigits09()
    ensures Pad(9, 2) == "09"
  {
  }

  lemma TwoDigits26()
    ensures Pad(26, 2) == "26"
  {
  }

  lemma TwoDigits17()
    ensures Pad(17, 2) == "17"
  {
  }

  lemma Render20220926At1700()
    ensures Render(Stamp(Date(2022, 9, 26), Clock(17, 0))) == "2022-09-26 17:00:00"
  {
    Year2022();
    TwoDigits09();
    TwoDigits26();
    TwoDigits17();
    TwoDigits00();
    Text20220926At1700();
  }

  lemma Text20220927At0200()
    ensures "2022" + "-" + "09" + "-" + "27" + " " + "02" + ":" + "00" + ":00" == "2022-09-27 02:00:00"
  {
  }

  lemma TwoDigits27()
    ensures Pad(27, 2) == "27"
  {
  }

  lemma TwoDigits02()
    ensures Pad(2, 2) == "02"
  {
  }

  lemma Render20220927At0200()
    ensures Render(Stamp(Date(2022, 9, 27), Clock(2, 0))) == "2022-09-27 02:00:00"
  {
    Year2022();
    TwoDigits09();
    TwoDigits27();
    TwoDigits02();
    TwoDigits00();
    Text20220927At0200();
  }

  lemma ZoneBST()
    ensures ResolveZone("BST") == "Europe/London"
  {
  }

  lemma Shift20220722At1900()
    ensures Shift(Stamp(Date(2022, 7, 22), Clock(19, 0)), 60) == Stamp(Date(2022, 7, 22), Clock(20, 0))
  {
    ShiftWithinDay(Stamp(Date(2022, 7, 22), Clock(19, 0)), 60, 1200);
  }

  lemma Shift20220723At0000()
    ensures Shift(Stamp(Date(2022, 7, 23), Clock(0, 0)), 60) == Stamp(Date(2022, 7, 23), Clock(1, 0))
  {
    ShiftWithinDay(Stamp(Date(2022, 7, 23), Clock(0, 0)), 60, 60);
  }

  lemma Reproject20220722At1900To0000()
    ensures Reproject(Span(Stamp(Date(2022, 7, 22), Clock(19, 0)), Stamp(Date(2022, 7, 23), Clock(0, 0))), 60) == Span(Stamp(Date(2022, 7, 22), Clock(20, 0)), Stamp(Date(2022, 7, 23), Clock(1, 0)))
  {
    Shift20220722At1900();
    Shift20220723At0000();
  }

  lemma Text20220723At0100()
    ensures "2022" + "-" + "07" + "-" + "23" + " " + "01" + ":" + "00" + ":00" == "2022-07-23 01:00:00"
  {
  }

  lemma TwoDigits01()
    ensures Pad(1, 2) == "01"
  {
  }

  lemma Render20220723At0100()
    ensures Render(Stamp(Date(2022, 7, 23), Clock(1, 0))) == "2022-07-23 01:00:00"
  {
    Year2022();
    TwoDigits07();
    TwoDigits23();
    TwoDigits01();
    TwoDigits00();
    Text20220723At0100();
  }

  lemma Shift20220722At1100()
    ensures Shift(Stamp(Date(2022, 7, 22), Clock(11, 0)), 60) == Stamp(Date(2022, 7, 22), Clock(12, 0))
  {
    ShiftWithinDay(Stamp(Date(2022, 7, 22), Clock(11, 0)), 60, 720);
  }

  lemma Shift20220722At2000()
    ensures Shift(Stamp(Date(2022, 7, 22), Clock(20, 0)), 60) == Stamp(Date(2022, 7, 22), Clock(21, 0))
  {
    ShiftWithinDay(Stamp(Date(2022, 7, 22), Clock(20, 0)), 60, 1260);
  }

  lemma Reproject20220722At1100To2000()
    ensures Reproject(Span(Stamp(Date(2022, 7, 22), Clock(11, 0)), Stamp(Date(2022, 7, 22), Clock(20, 0))), 60) == Span(Stamp(Date(2022, 7, 22), Clock(12, 0)), Stamp(Date(2022, 7, 22), Clock(21, 0)))
  {
    Shift20220722At1100();
    Shift20220722At2000();
  }

  lemma Text20220722At1200()
    ensures "2022" + "-" + "07" + "-" + "22" + " " + "12" + ":" + "00" + ":00" == "2022-07-22 12:00:00"
  {
  }

  lemma TwoDigits12()
    ensures Pad(12, 2) == "12"
  {
  }

  lemma Render20220722At1200()
    ensures Render(Stamp(Date(2022, 7, 22), Clock(12, 0))) == "2022-07-22 12:00:00"
  {
    Year2022();
    TwoDigits07();
    TwoDigits22();
    TwoDigits12();
    TwoDigits00();
    Text20220722At1200();
  }

  lemma Text20220722At2100()
    ensures "2022" + "-" + "07" + "-" + "22" + " " + "21" + ":" + "00" + ":00" == "2022-07-22 21:00:00"
  {
  }

  lemma TwoDigits21()
    ensures Pad(21, 2) == "21"
  {
  }

  lemma Render20220722At2100()
    ensures Render(Stamp(Date(2022, 7, 22), Clock(21, 0))) == "2022-07-22 21:00:00"
  {
    Year2022();
    TwoDigits07();
    TwoDigits22();
    TwoDigits21();
    TwoDigits00();
    Text20220722At2100();
  }

  lemma ConcatShortEvening()
    ensures "E " + ("10:00" + (" AM" + (" - " + ("7:00" + " PM")))) == "E 10:00 AM - 7:00 PM"
  {
  }

  lemma JoinsShortEvening()
    ensures Joined(Reading("E ", "10:00", " AM", " - ", "7:00", " PM")) == "E 10:00 AM - 7:00 PM"
  {
    ConcatShortEvening();
  }

  lemma CodeE()
    ensures PrefixOk("E ")
  {
  }

  lemma StartToken10h00()
    ensures StartTokenOk("10:00")
  {
  }

  lemma EndToken7h00()
    ensures EndTokenOk("7:00")
  {
  }

  lemma SplitsShortEvening()
    ensures Matches(TwelveHour, "E 10:00 AM - 7:00 PM", Reading("E ", "10:00", " AM", " - ", "7:00", " PM"))
  {
    CodeE();
    StartToken10h00();
    MarkerSpacedAm();
    SeparatorSpacedHyphen();
    EndToken7h00();
    MarkerSpacedPm();
    JoinsShortEvening();
  }

  lemma Reads10h00()
    ensures ReadClock("10:00") == Some(Clock(10, 0))
  {
  }

  lemma Token10h00SpacedAm()
    ensures TokenClock(TwelveHour, "10:00", " AM") == Some(Clock(10, 0))
  {
    Reads10h00();
  }

  lemma NotEarlier20220722At1900Than1000()
    ensures Minutes(Stamp(Date(2022, 7, 22), Clock(10, 0))) <= Minutes(Stamp(Date(2022, 7, 22), Clock(19, 0)))
  {
  }

  lemma Rollover20220722At1000To1900()
    ensures Rollover(Stamp(Date(2022, 7, 22), Clock(10, 0)), Stamp(Date(2022, 7, 22), Clock(19, 0))) == Stamp(Date(2022, 7, 22), Clock(19, 0))
  {
    NotEarlier20220722At1900Than1000();
  }

  lemma Shift20220722At1000()
    ensures Shift(Stamp(Date(2022, 7, 22), Clock(10, 0)), 60) == Stamp(Date(2022, 7, 22), Clock(11, 0))
  {
    ShiftWithinDay(Stamp(Date(2022, 7, 22), Clock(10, 0)), 60, 660);
  }

  lemma Reproject20220722At1000To1900()
    ensures Reproject(Span(Stamp(Date(2022, 7, 22), Clock(10, 0)), Stamp(Date(2022, 7, 22), Clock(19, 0))), 60) == Span(Stamp(Date(2022, 7, 22), Clock(11, 0)), Stamp(Date(2022, 7, 22), Clock(20, 0)))
  {
    Shift20220722At1000();
    Shift20220722At1900();
  }

  lemma ConcatPaddedHours()
    ensures "DY " + ("08:00" + (" AM" + (" - " + ("06:00" + " PM")))) == "DY 08:00 AM - 06:00 PM"
  {
  }

  lemma JoinsPaddedHours()
    ensures Joined(Reading("DY ", "08:00", " AM", " - ", "06:00", " PM")) == "DY 08:00 AM - 06:00 PM"
  {
    ConcatPaddedHours();
  }

  lemma CodeDY()
    ensures PrefixOk("DY ")
  {
  }

  lemma StartToken08h00()
    ensures StartTokenOk("08:00")
  {
  }

  lemma EndToken06h00()
    ensures EndTokenOk("06:00")
  {
  }

  lemma SplitsPaddedHours()
    ensures Matches(TwelveHour, "DY 08:00 AM - 06:00 PM", Reading("DY ", "08:00", " AM", " - ", "06:00", " PM"))
  {
    CodeDY();
    StartToken08h00();
    MarkerSpacedAm();
    SeparatorSpacedHyphen();
    EndToken06h00();
    MarkerSpacedPm();
    JoinsPaddedHours();
  }

  lemma Token08h00SpacedAm()
    ensures TokenClock(TwelveHour, "08:00", " AM") == Some(Clock(8, 0))
  {
    Reads08h00();
  }

  lemma Reads06h00()
    ensures ReadClock("06:00") == Some(Clock(6, 0))
  {
  }

  lemma Token06h00SpacedPm()
    ensures TokenClock(TwelveHour, "06:00", " PM") == Some(Clock(18, 0))
  {
    Reads06h00();
  }

  lemma NotEarlier20220722At1800Than0800()
    ensures Minutes(Stamp(Date(2022, 7, 22), Clock(8, 0))) <= Minutes(Stamp(Date(2022, 7, 22), Clock(18, 0)))
  {
  }

  lemma Rollover20220722At0800To1800()
    ensures Rollover(Stamp(Date(2022, 7, 22), Clock(8, 0)), Stamp(Date(2022, 7, 22), Clock(18, 0))) == Stamp(Date(2022, 7, 22), Clock(18, 0))
  {
    NotEarlier20220722At1800Than0800();
  }

  lemma Shift20220722At0800()
    ensures Shift(Stamp(Date(2022, 7, 22), Clock(8, 0)), 60) == Stamp(Date(2022, 7, 22), Clock(9, 0))
  {
    ShiftWithinDay(Stamp(Date(2022, 7, 22), Clock(8, 0)), 60, 540);
  }

  lemma Shift20220722At1800()
    ensures Shift(Stamp(Date(2022, 7, 22), Clock(18, 0)), 60) == Stamp(Date(2022, 7, 22), Clock(19, 0))
  {
    ShiftWithinDay(Stamp(Date(2022, 7, 22), Clock(18, 0)), 60, 1140);
  }

  lemma Reproject20220722At0800To1800()
    ensures Reproject(Span(Stamp(Date(2022, 7, 22), Clock(8, 0)), Stamp(Date(2022, 7, 22), Clock(18, 0))), 60) == Span(Stamp(Date(2022, 7, 22), Clock(9, 0)), Stamp(Date(2022, 7, 22), Clock(19, 0)))
  {
    Shift20220722At0800();
    Shift20220722At1800();
  }

  lemma Text20220722At0900()
    ensures "2022" + "-" + "07" + "-" + "22" + " " + "09" + ":" + "00" + ":00" == "2022-07-22 09:00:00"
  {
  }

  lemma Render20220722At0900()
    ensures Render(Stamp(Date(2022, 7, 22), Clock(9, 0))) == "2022-07-22 09:00:00"
  {
    Year2022();
    TwoDigits07();
    TwoDigits22();
    TwoDigits09();
    TwoDigits00();
    Text20220722At0900();
  }

  lemma ConcatShortHours()
    ensures "E " + ("9:00" + (" AM" + (" - " + ("6:00" + " PM")))) == "E 9:00 AM - 6:00 PM"
  {
  }

  lemma JoinsShortHours()
    ensures Joined(Reading("E ", "9:00", " AM", " - ", "6:00", " PM")) == "E 9:00 AM - 6:00 PM"
  {
    ConcatShortHours();
  }

  lemma StartToken9h00()
    ensures StartTokenOk("9:00")
  {
  }

  lemma EndToken6h00()
    ensures EndTokenOk("6:00")
  {
  }

  lemma SplitsShortHours()
    ensures Matches(TwelveHour, "E 9:00 AM - 6:00 PM", Reading("E ", "9:00", " AM", " - ", "6:00", " PM"))
  {
    CodeE();
    StartToken9h00();
    MarkerSpacedAm();
    SeparatorSpacedHyphen();
    EndToken6h00();
    MarkerSpacedPm();
    JoinsShortHours();
  }

  lemma Reads9h00()
    ensures ReadClock("9:00") == Some(Clock(9, 0))
  {
  }

  lemma Token9h00SpacedAm()
    ensures TokenClock(TwelveHour, "9:00", " AM") == Some(Clock(9, 0))
  {
    Reads9h00();
  }

  lemma Reads6h00()
    ensures ReadClock("6:00") == Some(Clock(6, 0))
  {
  }

  lemma Token6h00SpacedPm()
    ensures TokenClock(TwelveHour, "6:00", " PM") == Some(Clock(18, 0))
  {
    Reads6h00();
  }

  lemma NotEarlier20220722At1800Than0900()
    ensures Minutes(Stamp(Date(2022, 7, 22), Clock(9, 0))) <= Minutes(Stamp(Date(2022, 7, 22), Clock(18, 0)))
  {
  }

  lemma Rollover20220722At0900To1800()
    ensures Rollover(Stamp(Date(2022, 7, 22), Clock(9, 0)), Stamp(Date(2022, 7, 22), Clock(18, 0))) == Stamp(Date(2022, 7, 22), Clock(18, 0))
  {
    NotEarlier20220722At1800Than0900();
  }

  lemma Shift20220722At0900()
    ensures Shift(Stamp(Date(2022, 7, 22), Clock(9, 0)), 60) == Stamp(Date(2022, 7, 22), Clock(10, 0))
  {
    ShiftWithinDay(Stamp(Date(2022, 7, 22), Clock(9, 0)), 60, 600);
  }

  lemma Reproject20220722At0900To1800()
    ensures Reproject(Span(Stamp(Date(2022, 7, 22), Clock(9, 0)), Stamp(Date(2022, 7, 22), Clock(18, 0))), 60) == Span(Stamp(Date(2022, 7, 22), Clock(10, 0)), Stamp(Date(2022, 7, 22), Clock(19, 0)))
  {
    Shift20220722At0900();
    Shift20220722At1800();
  }

  lemma Text20220722At1000()
    ensures "2022" + "-" + "07" + "-" + "22" + " " + "10" + ":" + "00" + ":00" == "2022-07-22 10:00:00"
  {
  }

  lemma TwoDigits10()
    ensures Pad(10, 2) == "10"
  {
  }

  lemma Render20220722At1000()
    ensures Render(Stamp(Date(2022, 7, 22), Clock(10, 0))) == "2022-07-22 10:00:00"
  {
    Year2022();
    TwoDigits07();
    TwoDigits22();
    TwoDigits10();
    TwoDigits00();
    Text20220722At1000();
  }

  lemma ConcatPastMidnight()
    ensures "L " + ("2:00" + (" PM" + (" - " + ("11:00" + " PM")))) == "L 2:00 PM - 11:00 PM"
  {
  }

  lemma JoinsPastMidnight()
    ensures Joined(Reading("L ", "2:00", " PM", " - ", "11:00", " PM")) == "L 2:00 PM - 11:00 PM"
  {
    ConcatPastMidnight();
  }

  lemma StartToken2h00()
    ensures StartTokenOk("2:00")
  {
  }

  lemma EndToken11h00()
    ensures EndTokenOk("11:00")
  {
  }

  lemma SplitsPastMidnight()
    ensures Matches(TwelveHour, "L 2:00 PM - 11:00 PM", Reading("L ", "2:00", " PM", " - ", "11:00", " PM"))
  {
    CodeL();
    StartToken2h00();
    MarkerSpacedPm();
    SeparatorSpacedHyphen();
    EndToken11h00();
    MarkerSpacedPm();
    JoinsPastMidnight();
  }

  lemma Reads2h00()
    ensures ReadClock("2:00") == Some(Clock(2, 0))
  {
  }

  lemma Token2h00SpacedPm()
    ensures TokenClock(TwelveHour, "2:00", " PM") == Some(Clock(14, 0))
  {
    Reads2h00();
  }

  lemma Token11h00SpacedPm()
    ensures TokenClock(TwelveHour, "11:00", " PM") == Some(Clock(23, 0))
  {
    Reads11h00();
  }

  lemma NotEarlier20220722At2300Than1400()
    ensures Minutes(Stamp(Date(2022, 7, 22), Clock(14, 0))) <= Minutes(Stamp(Date(2022, 7, 22), Clock(23, 0)))
  {
  }

  lemma Rollover20220722At1400To2300()
    ensures Rollover(Stamp(Date(2022, 7, 22), Clock(14, 0)), Stamp(Date(2022, 7, 22), Clock(23, 0))) == Stamp(Date(2022, 7, 22), Clock(23, 0))
  {
    NotEarlier20220722At2300Than1400();
  }

  lemma Shift20220722At1400()
    ensures Shift(Stamp(Date(2022, 7, 22), Clock(14, 0)), 60) == Stamp(Date(2022, 7, 22), Clock(15, 0))
  {
    ShiftWithinDay(Stamp(Date(2022, 7, 22), Clock(14, 0)), 60, 900);
  }

  lemma Shift20220722At2300()
    ensures Shift(Stamp(Date(2022, 7, 22), Clock(23, 0)), 60) == Stamp(Date(2022, 7, 23), Clock(0, 0))
  {
    ShiftIntoNextDay(Stamp(Date(2022, 7, 22), Clock(23, 0)), 60, 0);
    DayAfter20220722();
  }

  lemma Reproject20220722At1400To2300()
    ensures Reproject(Span(Stamp(Date(2022, 7, 22), Clock(14, 0)), Stamp(Date(2022, 7, 22), Clock(23, 0))), 60) == Span(Stamp(Date(2022, 7, 22), Clock(15, 0)), Stamp(Date(2022, 7, 23), Clock(0, 0)))
  {
    Shift20220722At1400();
    Shift20220722At2300();
  }

  lemma Text20220722At1500()
    ensures "2022" + "-" + "07" + "-" + "22" + " " + "15" + ":" + "00" + ":00" == "2022-07-22 15:00:00"
  {
  }

  lemma TwoDigits15()
    ensures Pad(15, 2) == "15"
  {
  }

  lemma Render20220722At1500()
    ensures Render(Stamp(Date(2022, 7, 22), Clock(15, 0))) == "2022-07-22 15:00:00"
  {
    Year2022();
    TwoDigits07();
    TwoDigits22();
    TwoDigits15();
    TwoDigits00();
    Text20220722At1500();
  }

  lemma Shift20220926At1700()
    ensures Shift(Stamp(Date(2022, 9, 26), Clock(17, 0)), 60) == Stamp(Date(2022, 9, 26), Clock(18, 0))
  {
    ShiftWithinDay(Stamp(Date(2022, 9, 26), Clock(17, 0)), 60, 1080);
  }

  lemma Shift20220927At0200()
    ensures Shift(Stamp(Date(2022, 9, 27), Clock(2, 0)), 60) == Stamp(Date(2022, 9, 27), Clock(3, 0))
  {
    ShiftWithinDay(Stamp(Date(2022, 9, 27), Clock(2, 0)), 60, 180);
  }

  lemma Reproject20220926At1700To0200()
    ensures Reproject(Span(Stamp(Date(2022, 9, 26), Clock(17, 0)), Stamp(Date(2022, 9, 27), Clock(2, 0))), 60) == Span(Stamp(Date(2022, 9, 26), Clock(18, 0)), Stamp(Date(2022, 9, 27), Clock(3, 0)))
  {
    Shift20220926At1700();
    Shift20220927At0200();
  }

  lemma Text20220926At1800()
    ensures "2022" + "-" + "09" + "-" + "26" + " " + "18" + ":" + "00" + ":00" == "2022-09-26 18:00:00"
  {
  }

  lemma TwoDigits18()
    ensures Pad(18, 2) == "18"
  {
  }

  lemma Render20220926At1800()
    ensures Render(Stamp(Date(2022, 9, 26), Clock(18, 0))) == "2022-09-26 18:00:00"
  {
    Year2022();
    TwoDigits09();
    TwoDigits26();
    TwoDigits18();
    TwoDigits00();
    Text20220926At1800();
  }

  lemma Text20220927At0300()
    ensures "2022" + "-" + "09" + "-" + "27" + " " + "03" + ":" + "00" + ":00" == "2022-09-27 03:00:00"
  {
  }

  lemma TwoDigits03()
    ensures Pad(3, 2) == "03"
  {
  }

  lemma Render20220927At0300()
    ensures Render(Stamp(Date(2022, 9, 27), Clock(3, 0))) == "2022-09-27 03:00:00"
  {
    Year2022();
    TwoDigits09();
    TwoDigits27();
    TwoDigits03();
    TwoDigits00();
    Text20220927At0300();
  }
}
