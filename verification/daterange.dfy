/**
 * The shift-time parser: a calendar date and a loosely written shift such as
 * "1900-0000", "L 19:00 - 00:00" or "5:00PM - 02:00AM" become the start and
 * end of the shift as wall-clock timestamps, optionally moved into another
 * zone, rendered `YYYY-MM-DD HH:MM:SS`.
 */
module DateRange {
  import opened Optional
  import opened Text
  import opened Calendar
  import opened Timestamp
  import opened Zones
  import opened ShiftPattern
  import opened TimeToken

  /** The ways a parse can fail. The first is the parser's own; the others
      are the date library refusing a time or a zone identifier. */
  datatype ParseError = UnrecognizedFormat | InvalidTimeComponent | InvalidTimezone

  datatype Result<T> = Ok(value: T) | Err(error: ParseError)

  /** The start and end of a shift on one zone's wall clock. */
  datatype Span = Span(start: Stamp, end: Stamp)

  predicate ValidSpan(sp: Span) {
    ValidStamp(sp.start) && ValidStamp(sp.end)
  }

  /** The shape of a shift-time string and how it splits. The 24-hour shape
      is tried first and the 12-hour shape only when it fails; None when the
      string has neither. */
  function Recognise(s: string): (r: Option<(Shape, Reading)>)
    ensures r.Some? ==> Matches(r.value.0, s, r.value.1)
  {
    match Match(TwentyFourHour, s)
    case Some(rd) => Some((TwentyFourHour, rd))
    case None =>
      match Match(TwelveHour, s)
      case Some(rd) => Some((TwelveHour, rd))
      case None => None
  }

  /** When the matcher finds neither shape, no split of the string has either. */
  lemma NoMatchNoShape(s: string)
    requires Match(TwentyFourHour, s).None? && Match(TwelveHour, s).None?
    ensures forall shape, rd :: !Matches(shape, s, rd)
  {
    forall shape, rd
      ensures !Matches(shape, s, rd)
    {
      if shape == TwentyFourHour {
        MatchNoneComplete(TwentyFourHour, s, rd);
      } else {
        MatchNoneComplete(TwelveHour, s, rd);
      }
    }
  }

  /** The overnight rule: an end earlier than the start belongs to the next
      day; an end equal to or later than the start stays where it is. */
  function Rollover(start: Stamp, end: Stamp): (e: Stamp)
    requires ValidStamp(start) && ValidStamp(end)
    ensures ValidStamp(e) && e.time == end.time
    ensures Minutes(end) < Minutes(start) ==> Minutes(e) == Minutes(end) + 1440
    ensures Minutes(start) <= Minutes(end) ==> e == end
    ensures start.date == end.date ==> Minutes(start) <= Minutes(e) < Minutes(start) + 1440
  {
    if Minutes(end) < Minutes(start) then AddDay(end) else end
  }

  /** Both ends moved onto another zone's wall clock, `delta` minutes ahead
      of the one they were read on. */
  function Reproject(sp: Span, delta: int): (r: Span)
    requires ValidSpan(sp)
    ensures ValidSpan(r)
    ensures Minutes(r.start) == Minutes(sp.start) + delta
    ensures Minutes(r.end) == Minutes(sp.end) + delta
  {
    ShiftMinutes(sp.start, delta);
    ShiftMinutes(sp.end, delta);
    Span(Shift(sp.start, delta), Shift(sp.end, delta))
  }

  /** What follows recognition: read both tokens on the given date in the
      source zone, apply the overnight rule, and move both ends to the
      target zone when there is one. Zones are already resolved; the zone
      table stands for the date library's zone database. */
  function Outcome(date: Date, shape: Shape, rd: Reading, source: string,
                   target: Option<string>, zones: ZoneTable): (r: Result<Span>)
    requires ValidDate(date)
    ensures r != Err(UnrecognizedFormat)
    ensures r.Ok? ==> ValidSpan(r.value)
    ensures r.Ok? ==> Minutes(r.value.start) <= Minutes(r.value.end) < Minutes(r.value.start) + 1440
  {
    if source !in zones then Err(InvalidTimezone)
    else
      match (TokenClock(shape, rd.start, rd.startMarker), TokenClock(shape, rd.end, rd.endMarker))
      case (None, _) => Err(InvalidTimeComponent)
      case (_, None) => Err(InvalidTimeComponent)
      case (Some(c1), Some(c2)) =>
        var start := Stamp(date, c1);
        var span := Span(start, Rollover(start, Stamp(date, c2)));
        match target
        case None => Ok(span)
        case Some(z) =>
          if z !in zones then Err(InvalidTimezone)
          else Ok(Reproject(span, OffsetChange(zones, source, z)))
  }

  /** The parse, before rendering: resolve the zone aliases, recognise the
      shape, then read, roll over and move the two ends. */
  function ParseSpan(date: Date, shiftTimes: string, timezone: string,
                     toTimezone: Option<string>, zones: ZoneTable): (r: Result<Span>)
    requires ValidDate(date)
    ensures r.Ok? ==> ValidSpan(r.value)
    ensures r.Ok? ==> Minutes(r.value.start) <= Minutes(r.value.end) < Minutes(r.value.start) + 1440
  {
    match Recognise(shiftTimes)
    case None => Err(UnrecognizedFormat)
    case Some((shape, rd)) => Outcome(date, shape, rd, ResolveZone(timezone), ResolveTarget(toTimezone), zones)
  }

  /** The parser: the span rendered `Y-m-d H:i:s`, or the error. */
  function Parse(date: Date, shiftTimes: string, timezone: string,
                 toTimezone: Option<string>, zones: ZoneTable): (r: Result<(string, string)>)
    requires ValidDate(date)
    ensures ParseSpan(date, shiftTimes, timezone, toTimezone, zones).Err? ==>
              r == Err(ParseSpan(date, shiftTimes, timezone, toTimezone, zones).error)
    ensures ParseSpan(date, shiftTimes, timezone, toTimezone, zones).Ok? ==>
              (r.Ok? &&
               var sp := ParseSpan(date, shiftTimes, timezone, toTimezone, zones).value;
               (0 <= sp.start.date.year < 10000 ==> ReadStamp(r.value.0) == Some(sp.start)) &&
               (0 <= sp.end.date.year < 10000 ==> ReadStamp(r.value.1) == Some(sp.end)))
  {
    match ParseSpan(date, shiftTimes, timezone, toTimezone, zones)
    case Err(e) => Err(e)
    case Ok(sp) =>
      RenderRoundTrip(sp.start);
      RenderRoundTrip(sp.end);
      Ok((Render(sp.start), Render(sp.end)))
  }

  /** The rendered result is the rendering of the span. */
  lemma ParseOf(date: Date, s: string, timezone: string, toTimezone: Option<string>,
                zones: ZoneTable, sp: Span)
    requires ValidDate(date) && ParseSpan(date, s, timezone, toTimezone, zones) == Ok(sp)
    ensures ValidSpan(sp)
    ensures Parse(date, s, timezone, toTimezone, zones) == Ok((Render(sp.start), Render(sp.end)))
  {
  }

  /** A string of either shape is recognised as that shape, split that way. */
  lemma RecogniseFinds(s: string, shape: Shape, rd: Reading)
    requires Matches(shape, s, rd)
    ensures Recognise(s) == Some((shape, rd))
  {
    if shape == TwentyFourHour {
      MatchComplete(shape, s, rd);
    } else {
      if Match(TwentyFourHour, s).Some? {
        ShapesDisjoint(s, Match(TwentyFourHour, s).value, rd);
      }
      MatchComplete(shape, s, rd);
    }
  }

  /** A string of either shape is parsed from the split the pattern gives it. */
  lemma ParseSpanOf(date: Date, s: string, timezone: string, toTimezone: Option<string>,
                    zones: ZoneTable, shape: Shape, rd: Reading)
    requires ValidDate(date) && Matches(shape, s, rd)
    ensures ParseSpan(date, s, timezone, toTimezone, zones)
              == Outcome(date, shape, rd, ResolveZone(timezone), ResolveTarget(toTimezone), zones)
  {
    RecogniseFinds(s, shape, rd);
  }

  /** The parser's own error is reported exactly when the string splits in
      neither shape. */
  lemma UnrecognizedExactly(date: Date, s: string, timezone: string,
                            toTimezone: Option<string>, zones: ZoneTable)
    requires ValidDate(date)
    ensures (ParseSpan(date, s, timezone, toTimezone, zones) == Err(UnrecognizedFormat))
            <==> (forall shape, rd :: !Matches(shape, s, rd))
  {
    var r := Recognise(s);
    if r.None? {
      NoMatchNoShape(s);
    } else {
      assert Matches(r.value.0, s, r.value.1);
    }
  }

  /** Every split starts its first token with a digit, so a string
      without digits has no split of either shape. */
  lemma NoDigitNoShape(s: string)
    requires NoDigits(s)
    ensures forall shape, rd :: !Matches(shape, s, rd)
  {
    forall shape, rd
      ensures !Matches(shape, s, rd)
    {
      if Matches(shape, s, rd) {
        MatchHasDigit(shape, s, rd);
      }
    }
  }

  /** A match has a digit right after its shift code. */
  lemma MatchHasDigit(shape: Shape, s: string, rd: Reading)
    requires Matches(shape, s, rd)
    ensures |rd.prefix| < |s| && IsDigit(s[|rd.prefix|])
  {
    TokenEnds(rd.start, 1);
    var j := Joined(rd);
    assert j[|rd.prefix|] == rd.start[0];
    assert s[|rd.prefix|] == j[|rd.prefix|];
  }

  /** A shift string without a single digit is refused with the parser's
      own error, whatever the zones. */
  lemma NoDigitsRejected(date: Date, s: string, timezone: string,
                         toTimezone: Option<string>, zones: ZoneTable)
    requires ValidDate(date) && NoDigits(s)
    ensures ParseSpan(date, s, timezone, toTimezone, zones) == Err(UnrecognizedFormat)
    ensures Parse(date, s, timezone, toTimezone, zones) == Err(UnrecognizedFormat)
  {
    NoDigitNoShape(s);
    UnrecognizedExactly(date, s, timezone, toTimezone, zones);
  }

  /** After recognition, without a target: the overnight rule on the two token times. */
  lemma OutcomeWithoutTarget(date: Date, shape: Shape, rd: Reading, source: string, zones: ZoneTable)
    requires ValidDate(date) && source in zones
    requires TokenClock(shape, rd.start, rd.startMarker).Some?
    requires TokenClock(shape, rd.end, rd.endMarker).Some?
    ensures var c1 := TokenClock(shape, rd.start, rd.startMarker).value;
            var c2 := TokenClock(shape, rd.end, rd.endMarker).value;
            Outcome(date, shape, rd, source, None, zones)
              == Ok(Span(Stamp(date, c1),
                         Stamp(if MinuteOfDay(c2) < MinuteOfDay(c1) then NextDay(date) else date, c2)))
  {
  }

  /** Without a target zone the start is the start token's time on the given
      date, and the end is the end token's time on the same date, or on the
      next day exactly when that time is earlier than the start's. */
  lemma RolloverRule(date: Date, s: string, timezone: string, zones: ZoneTable, shape: Shape, rd: Reading)
    requires ValidDate(date) && Matches(shape, s, rd) && ResolveZone(timezone) in zones
    requires TokenClock(shape, rd.start, rd.startMarker).Some?
    requires TokenClock(shape, rd.end, rd.endMarker).Some?
    ensures var c1 := TokenClock(shape, rd.start, rd.startMarker).value;
            var c2 := TokenClock(shape, rd.end, rd.endMarker).value;
            ParseSpan(date, s, timezone, None, zones)
              == Ok(Span(Stamp(date, c1),
                         Stamp(if MinuteOfDay(c2) < MinuteOfDay(c1) then NextDay(date) else date, c2)))
  {
    ParseSpanOf(date, s, timezone, None, zones, shape, rd);
    OutcomeWithoutTarget(date, shape, rd, ResolveZone(timezone), zones);
  }

  /** After recognition: an unknown source zone fails first, then a token
      that does not read as a time. */
  lemma OutcomeFailures(date: Date, shape: Shape, rd: Reading, source: string,
                        target: Option<string>, zones: ZoneTable)
    requires ValidDate(date)
    ensures source !in zones ==> Outcome(date, shape, rd, source, target, zones) == Err(InvalidTimezone)
    ensures source in zones && (TokenClock(shape, rd.start, rd.startMarker).None?
                                || TokenClock(shape, rd.end, rd.endMarker).None?) ==>
              Outcome(date, shape, rd, source, target, zones) == Err(InvalidTimeComponent)
  {
  }

  /** The failures of a recognised string: an unknown source zone, then a
      token the library does not accept as a time. */
  lemma RecognisedFailures(date: Date, s: string, timezone: string, toTimezone: Option<string>,
                           zones: ZoneTable, shape: Shape, rd: Reading)
    requires ValidDate(date) && Matches(shape, s, rd)
    ensures ResolveZone(timezone) !in zones ==>
              ParseSpan(date, s, timezone, toTimezone, zones) == Err(InvalidTimezone)
    ensures ResolveZone(timezone) in zones && (TokenClock(shape, rd.start, rd.startMarker).None?
                                               || TokenClock(shape, rd.end, rd.endMarker).None?) ==>
              ParseSpan(date, s, timezone, toTimezone, zones) == Err(InvalidTimeComponent)
  {
    ParseSpanOf(date, s, timezone, toTimezone, zones, shape, rd);
    OutcomeFailures(date, shape, rd, ResolveZone(timezone), ResolveTarget(toTimezone), zones);
  }

  /** After recognition, a known target zone moves both ends of the target-free result. */
  lemma OutcomeKnownTarget(date: Date, shape: Shape, rd: Reading, source: string, z: string,
                           zones: ZoneTable, sp: Span)
    requires ValidDate(date) && z in zones
    requires Outcome(date, shape, rd, source, None, zones) == Ok(sp)
    ensures ValidSpan(sp) && source in zones
    ensures Outcome(date, shape, rd, source, Some(z), zones) == Ok(Reproject(sp, OffsetChange(zones, source, z)))
  {
    var c1 := TokenClock(shape, rd.start, rd.startMarker).value;
    var c2 := TokenClock(shape, rd.end, rd.endMarker).value;
    assert sp == Span(Stamp(date, c1), Rollover(Stamp(date, c1), Stamp(date, c2)));
  }

  /** After recognition, an unknown target zone is an error once the tokens read. */
  lemma OutcomeUnknownTarget(date: Date, shape: Shape, rd: Reading, source: string, z: string, zones: ZoneTable)
    requires ValidDate(date) && z !in zones
    requires Outcome(date, shape, rd, source, None, zones).Ok?
    ensures Outcome(date, shape, rd, source, Some(z), zones) == Err(InvalidTimezone)
  {
  }

  /** A known target zone moves both ends of the target-free result by the
      same change of offset, so the length of the shift is kept. */
  lemma TargetMovesBothEnds(date: Date, s: string, timezone: string, target: string,
                            zones: ZoneTable, sp: Span)
    requires ValidDate(date) && ResolveZone(target) in zones
    requires ParseSpan(date, s, timezone, None, zones) == Ok(sp)
    ensures ResolveZone(timezone) in zones && ValidSpan(sp)
    ensures ParseSpan(date, s, timezone, Some(target), zones)
              == Ok(Reproject(sp, OffsetChange(zones, ResolveZone(timezone), ResolveZone(target))))
  {
    var (shape, rd) := Recognise(s).value;
    var source, z := ResolveZone(timezone), ResolveZone(target);
    assert ResolveTarget(Some(target)) == Some(z);
    assert Outcome(date, shape, rd, source, None, zones) == Ok(sp);
    OutcomeKnownTarget(date, shape, rd, source, z, zones, sp);
  }

  /** A move to a target zone keeps the instant of both ends: a wall-clock
      time less its zone's UTC offset is the same before and after. */
  lemma TargetKeepsInstant(date: Date, s: string, timezone: string, target: string,
                           zones: ZoneTable, sp: Span, tp: Span)
    requires ValidDate(date)
    requires ParseSpan(date, s, timezone, None, zones) == Ok(sp)
    requires ParseSpan(date, s, timezone, Some(target), zones) == Ok(tp)
    ensures ResolveZone(timezone) in zones && ResolveZone(target) in zones
    ensures Minutes(tp.start) - zones[ResolveZone(target)] == Minutes(sp.start) - zones[ResolveZone(timezone)]
    ensures Minutes(tp.end) - zones[ResolveZone(target)] == Minutes(sp.end) - zones[ResolveZone(timezone)]
  {
    if ResolveZone(target) !in zones {
      UnknownTargetFails(date, s, timezone, target, zones);
    }
    TargetMovesBothEnds(date, s, timezone, target, zones, sp);
  }

  /** An unknown target zone is an error, though it is checked only once
      everything else has succeeded. */
  lemma UnknownTargetFails(date: Date, s: string, timezone: string, target: string, zones: ZoneTable)
    requires ValidDate(date) && ResolveZone(target) !in zones
    requires ParseSpan(date, s, timezone, None, zones).Ok?
    ensures ParseSpan(date, s, timezone, Some(target), zones) == Err(InvalidTimezone)
  {
    var (shape, rd) := Recognise(s).value;
    assert ResolveTarget(Some(target)) == Some(ResolveZone(target));
    OutcomeUnknownTarget(date, shape, rd, ResolveZone(timezone), ResolveZone(target), zones);
  }

  /** Moving a span into another zone and back gives the original wall-clock
      values: nothing is lost. */
  lemma ReprojectRoundTrip(sp: Span, delta: int)
    requires ValidSpan(sp)
    ensures Reproject(Reproject(sp, delta), -delta) == sp
  {
    ShiftRoundTrip(sp.start, delta);
    ShiftRoundTrip(sp.end, delta);
  }

  /** "BST" as the source zone gives the result of "Europe/London". */
  lemma BstSourceIsLondon(date: Date, s: string, toTimezone: Option<string>, zones: ZoneTable)
    requires ValidDate(date)
    ensures ParseSpan(date, s, "BST", toTimezone, zones)
              == ParseSpan(date, s, "Europe/London", toTimezone, zones)
  {
  }

  /** "BST" as the target zone gives the result of "Europe/London". */
  lemma BstTargetIsLondon(date: Date, s: string, timezone: string, zones: ZoneTable)
    requires ValidDate(date)
    ensures ParseSpan(date, s, timezone, Some("BST"), zones)
              == ParseSpan(date, s, timezone, Some("Europe/London"), zones)
  {
  }

  /** After recognition a reading counts only through the times of day its
      two tokens denote. */
  lemma OutcomeSameClocks(date: Date, shape: Shape, rd1: Reading, rd2: Reading,
                          source: string, target: Option<string>, zones: ZoneTable)
    requires ValidDate(date)
    requires TokenClock(shape, rd1.start, rd1.startMarker) == TokenClock(shape, rd2.start, rd2.startMarker)
    requires TokenClock(shape, rd1.end, rd1.endMarker) == TokenClock(shape, rd2.end, rd2.endMarker)
    ensures Outcome(date, shape, rd1, source, target, zones) == Outcome(date, shape, rd2, source, target, zones)
  {
  }

  /** After recognition only the tokens and their meridiems count. */
  lemma OutcomeSameTokens(date: Date, shape: Shape, rd1: Reading, rd2: Reading,
                          source: string, target: Option<string>, zones: ZoneTable)
    requires ValidDate(date)
    requires rd1.start == rd2.start && rd1.end == rd2.end
    requires MarkerMeridiem(rd1.startMarker) == MarkerMeridiem(rd2.startMarker)
    requires MarkerMeridiem(rd1.endMarker) == MarkerMeridiem(rd2.endMarker)
    ensures Outcome(date, shape, rd1, source, target, zones) == Outcome(date, shape, rd2, source, target, zones)
  {
    assert TokenClock(shape, rd1.start, rd1.startMarker) == TokenClock(shape, rd2.start, rd2.startMarker);
    assert TokenClock(shape, rd1.end, rd1.endMarker) == TokenClock(shape, rd2.end, rd2.endMarker);
    OutcomeSameClocks(date, shape, rd1, rd2, source, target, zones);
  }

  /** Only the two tokens and the meridiem of their markers decide the result:
      the shift code, the spacing around the hyphen, the space before a
      marker and a final line feed change nothing. */
  lemma OnlyTokensMatter(date: Date, s1: string, s2: string, timezone: string,
                         toTimezone: Option<string>, zones: ZoneTable,
                         shape: Shape, rd1: Reading, rd2: Reading)
    requires ValidDate(date) && Matches(shape, s1, rd1) && Matches(shape, s2, rd2)
    requires rd1.start == rd2.start && rd1.end == rd2.end
    requires MarkerMeridiem(rd1.startMarker) == MarkerMeridiem(rd2.startMarker)
    requires MarkerMeridiem(rd1.endMarker) == MarkerMeridiem(rd2.endMarker)
    ensures ParseSpan(date, s1, timezone, toTimezone, zones)
              == ParseSpan(date, s2, timezone, toTimezone, zones)
  {
    ParseSpanOf(date, s1, timezone, toTimezone, zones, shape, rd1);
    ParseSpanOf(date, s2, timezone, toTimezone, zones, shape, rd2);
    OutcomeSameTokens(date, shape, rd1, rd2, ResolveZone(timezone), ResolveTarget(toTimezone), zones);
  }

  /** The four digits "HHMM" with a colon put in the middle. */
  function WithColon(t: string): string
    requires |t| == 4
  {
    t[..2] + ":" + t[2..]
  }

  /** After recognition a 24-hour token counts the same with or without its colon. */
  lemma OutcomeWithColon(date: Date, rd1: Reading, rd2: Reading,
                         source: string, target: Option<string>, zones: ZoneTable)
    requires ValidDate(date)
    requires |rd1.start| == 4 && AllDigits(rd1.start) && rd2.start == WithColon(rd1.start)
    requires |rd1.end| == 4 && AllDigits(rd1.end) && rd2.end == WithColon(rd1.end)
    ensures Outcome(date, TwentyFourHour, rd1, source, target, zones)
              == Outcome(date, TwentyFourHour, rd2, source, target, zones)
  {
    NormalizeFourDigits(rd1.start);
    NormalizeFourDigits(rd1.end);
    assert TokenClock(TwentyFourHour, rd1.start, rd1.startMarker) == TokenClock(TwentyFourHour, rd2.start, rd2.startMarker);
    assert TokenClock(TwentyFourHour, rd1.end, rd1.endMarker) == TokenClock(TwentyFourHour, rd2.end, rd2.endMarker);
    OutcomeSameClocks(date, TwentyFourHour, rd1, rd2, source, target, zones);
  }

  /** A 24-hour shift gives the same result with or without colons. */
  lemma ColonOptional(date: Date, prefix: string, a: string, sep: string, b: string,
                      timezone: string, toTimezone: Option<string>, zones: ZoneTable)
    requires ValidDate(date) && PrefixOk(prefix) && SeparatorOk(sep)
    requires |a| == 4 && AllDigits(a) && |b| == 4 && AllDigits(b)
    ensures ParseSpan(date, prefix + a + sep + b, timezone, toTimezone, zones)
              == ParseSpan(date, prefix + WithColon(a) + sep + WithColon(b), timezone, toTimezone, zones)
  {
    var rd1 := Reading(prefix, a, [], sep, b, []);
    var rd2 := Reading(prefix, WithColon(a), [], sep, WithColon(b), []);
    assert Joined(rd1) == prefix + a + sep + b;
    assert Joined(rd2) == prefix + WithColon(a) + sep + WithColon(b);
    assert WithColon(a)[2] == ':' && WithColon(b)[2] == ':';
    assert ReadingOk(TwentyFourHour, rd2);
    ParseSpanOf(date, prefix + a + sep + b, timezone, toTimezone, zones, TwentyFourHour, rd1);
    ParseSpanOf(date, prefix + WithColon(a) + sep + WithColon(b), timezone, toTimezone, zones, TwentyFourHour, rd2);
    OutcomeWithColon(date, rd1, rd2, ResolveZone(timezone), ResolveTarget(toTimezone), zones);
  }
}
