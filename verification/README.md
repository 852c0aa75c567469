# Shift-time parsing, modelled in Dafny

This project models `DateRange::parse` of the TeleOpti shift-time parser. The
routine takes a calendar date and a loosely written shift such as
`"1900-0000"`, `"L 19:00 - 00:00"` or `"5:00PM - 02:00AM"`, and returns the
start and end of the shift as `Y-m-d H:i:s` strings. Its steps are:

1. The zone alias `BST` is rewritten to `Europe/London`, for the source zone
   and the target zone independently.
2. The string is recognised by one of two anchored regular expressions. The
   24-hour shape is tried first. The 12-hour shape, with an upper-case
   `AM`/`PM` after each token, is tried only when the first fails.
3. A 24-hour token of exactly four characters is rewritten `%02d:%02d`.
4. Both times are read with the date library's `H:i` (or `H:i A`) format
   on the given date in the source zone. Under `H:i A` any digits after the
   two minute digits are skipped, so `"7:000 PM"` reads as 19:00.
5. An end earlier than the start moves to the next day.
6. Both ends are optionally moved to a target zone.
7. Both ends are rendered.

The model is functional: immutable datatypes and pure functions over
`seq<char>`. The modules follow the steps:

| module | file | what it holds |
|---|---|---|
| `Optional` | optional.dfy | `Option` |
| `Text` | text.dfy | digits, decimal numerals, `%0Nd` padding, PHP's reading of a string as an integer |
| `Calendar` | calendar.dfy | proleptic Gregorian dates, the day after, moving by n days |
| `Timestamp` | timestamp.dfy | times of day, wall-clock stamps, adding a day, shifting by minutes, rendering and reading back |
| `Zones` | zones.dfy | the `BST` alias, the zone table, the change of offset between two zones |
| `ShiftPattern` | pattern.dfy | the two regular expressions as a structural predicate (`Matches`), and a matcher proved sound and complete for it |
| `TimeToken` | token.dfy | the four-character rewrite, the `H:i` reading, the 12-hour conversion |
| `DateRange` | daterange.dfy | recognition, the overnight rule, reprojection, the parse and its error paths |
| `Scenarios` | scenarios.dfy | every example of the repository's unit tests, proved of the model |

Failures are a `Result` carrying one of three errors:

- `UnrecognizedFormat` is the parser's own exception.
- `InvalidTimeComponent` stands for the date library refusing a time, and
  for a time out of range, which the library would overflow instead (see
  "Left out").
- `InvalidTimezone` stands for the date library refusing a zone identifier.

The errors are checked in the order the code meets them: shape first, then
the source zone and both times (built together on lines 62-63 or 73-74),
then the target zone (lines 84-85).

The date library's zone database is replaced by a `ZoneTable`, a map from
zone identifier to its UTC offset in minutes on the day of the shift. The
scenarios hold for every table that knows the zones involved; the zone-change
scenarios also require the table to give SAST one hour more than
Europe/London, as on the summer dates of the unit-test cases.

Where the prose description of the routine and the code differ, the model
follows the code:

- The rewrite of step 3 is keyed on the token's length alone, not on "four
  digits, no colon". So `9:00` becomes `09:00`, and `12:3` becomes `12:00`
  because PHP reads `":3"` as 0 (`TimeToken.NormalizeKeepsReading`,
  `TimeToken.NormalizeShortMinute`).
- The tokens are asymmetric: the end token needs one digit more than the
  start token. `"19-2000"` has the 24-hour shape, `"2000-19"` has none.
- `\s` is any of space, tab, line feed, vertical tab, form feed and carriage
  return, not only a space.
- `$` also matches before one final line feed, so `"1900-0000\n"` parses
  like `"1900-0000"` (`DateRange.OnlyTokensMatter`).
- The shift code may be any one or two non-digits, not only letters.

## Model

| member | source | states |
|---|---|---|
| Zones.ResolveZone | src/DateRange.php:27-29 | The source zone "BST" becomes "Europe/London"; every other identifier is passed on unchanged. |
| Zones.ResolveTarget | src/DateRange.php:31-33 | An absent target stays absent; a target of "BST" becomes "Europe/London"; any other target is unchanged. |
| DateRange.BstSourceIsLondon | src/DateRange.php:27-29 | For every date, string, target and zone table, parsing in "BST" gives exactly the result of parsing in "Europe/London". |
| DateRange.BstTargetIsLondon | src/DateRange.php:31-33 | For every input, the target "BST" gives exactly the result of the target "Europe/London". |
| Text.Pad | src/DateRange.php:47-51 | The `%0Nd` conversion: only digits, denoting n, as long as n's shortest numeral or the width, whichever is longer. |
| Text.PadTwoDigits | src/DateRange.php:47-51 | Printing `%02d` the number that two digits denote gives those two digits back. |
| Text.LeadingInt | src/DateRange.php:49-50 | The integer PHP reads from a `substr` piece: the value of its one run of leading digits, so the numeral's value when the piece is all digits, the first digit's value for a digit then a colon ("9:" is 9), and 0 when it starts with a non-digit. |
| ShiftPattern.Matches | src/DateRange.php:45-72 | The two anchored patterns of lines 45 and 72 read declaratively: at most two non-digits and one whitespace, a start token of digits with an optional inner colon, a separator of a hyphen with at most one whitespace either side, an end token with at least two digits after any colon, upper-case `AM`/`PM` markers in the 12-hour shape, and nothing else but one final line feed. |
| ShiftPattern.Body | src/DateRange.php:45 | The end anchor: the string is the part the pattern must cover, or that part followed by one line feed. |
| ShiftPattern.Split | src/DateRange.php:45 | A cut the matcher makes always joins back to the string it was made from. |
| ShiftPattern.Match | src/DateRange.php:45 | Soundness: a split the matcher returns satisfies the pattern. Every piece is well formed, and the pieces join to the string or to the string less a final line feed. |
| ShiftPattern.SplitOfJoined | src/DateRange.php:45 | Cutting the joined pieces of any well-formed split finds exactly those pieces. |
| ShiftPattern.BodyOfMatch | src/DateRange.php:45 | A final line feed is never part of a match. |
| ShiftPattern.MatchComplete | src/DateRange.php:45 | Completeness: every split of the string that satisfies the pattern is the one the matcher returns. |
| ShiftPattern.MatchNoneComplete | src/DateRange.php:45 | When the matcher finds nothing, no split of the string satisfies the pattern. |
| ShiftPattern.ReadingUnique | src/DateRange.php:45 | The capture groups are determined: two splits of one string under one shape are equal. |
| ShiftPattern.MatchLast | src/DateRange.php:72 | A 24-hour match ends in a digit; a 12-hour match ends in `M`. |
| ShiftPattern.ShapesDisjoint | src/DateRange.php:45-72 | No string has both shapes. |
| TimeToken.ClockText | src/DateRange.php:47-51 | `%02d:%02d` of an hour and a minute below 100: five characters, two digits denoting the hour, a colon, two digits denoting the minute. |
| TimeToken.Normalize | src/DateRange.php:46-60 | Tokens of any length but four pass unchanged. A four-character token becomes five characters, which read as the integers of its first two and last two characters. |
| TimeToken.NormalizeIdempotent | src/DateRange.php:46-60 | Rewriting an already rewritten token changes nothing. |
| TimeToken.NormalizeFourDigits | src/DateRange.php:46-51 | Four digits gain a colon in the middle: "1900" becomes "19:00". |
| TimeToken.NormalizeKeepsReading | src/DateRange.php:46-51 | A four-character token that already reads as a time ("9:00") reads as the same time after the rewrite ("09:00"). |
| TimeToken.NormalizeShortMinute | src/DateRange.php:46-51 | "dd:d" does not read as a time, yet the rewrite turns it into "dd:00". |
| TimeToken.ReadClock | src/DateRange.php:62-63 | A time read by `H:i` has an hour and a minute below 100; the range check comes later. |
| TimeToken.ReadClockText | src/DateRange.php:47-63 | Printing hour and minute `%02d:%02d` and reading the text with `H:i` gives back the same hour and minute. |
| TimeToken.ReadShortClock | src/DateRange.php:62-63 | `H:i` reads a one-digit hour, a colon and two minute digits as that hour and minute. |
| TimeToken.MarkerMeridiem | src/DateRange.php:73-74 | The `A` of the format reads a well-formed marker as PM exactly when it ends in "PM", and as AM exactly when it ends in "AM". |
| TimeToken.HourOfDay | src/DateRange.php:73-74 | A 12-hour clock hour from 1 to 12 becomes an hour of the day from 0 to 23, at or after noon exactly for PM. |
| TimeToken.TwelveHourOf | src/DateRange.php:73-74 | Every hour of the day has a 12-hour clock reading with an hour from 1 to 12. |
| TimeToken.HourRoundTrip | src/DateRange.php:73-74 | The 12-hour and 24-hour clocks correspond one to one: converting either way and back is the identity. |
| TimeToken.ReadTwelveHourClock | src/DateRange.php:73-74 | The `H:i` of `H:i A`: wherever `H:i` reads a token it reads the same, and a reading always comes from the token's first five or four characters, with no A, a, P or p after them. |
| TimeToken.TrailingDigitsIgnored | src/DateRange.php:73-74 | Digits after the two minute digits are skipped by `A`: a token readable as `H:i` followed by any digits reads as the token alone. |
| TimeToken.TwelveHourTrailingDigits | src/DateRange.php:73-74 | A 12-hour token with extra digits after its minutes denotes the same time as without them, whatever the marker. |
| TimeToken.SevenPmExtraDigit | src/DateRange.php:73-74 | "7:000" with the marker " PM" denotes 19:00. |
| TimeToken.TokenClock | src/DateRange.php:62-74 | Any time of day a token yields under either shape is valid. |
| TimeToken.TwentyFourHourToken | src/DateRange.php:62-63 | Every valid time of day, printed `HH:MM`, reads back as itself in the 24-hour shape. |
| TimeToken.TwelveHourToken | src/DateRange.php:73-74 | Every valid time of day, printed on the 12-hour clock with AM or PM (spaced or not), reads back as itself. |
| TimeToken.TwentyFourHourShortToken | src/DateRange.php:46-63 | Every valid time before ten o'clock, printed `H:MM` with a one-digit hour as a 24-hour token, reads back as itself. |
| TimeToken.TwelveHourShortToken | src/DateRange.php:73-74 | Every valid time whose 12-hour clock hour is below ten, printed `H:MM` with its marker (spaced or not), reads back as itself: "7:00 PM" is 19:00. |
| Calendar.YearLength | src/DateRange.php:80 | The Gregorian leap-year rule: the days between one New Year's Day and the next are the length of the year. |
| Calendar.NextDay | src/DateRange.php:80 | The day after a valid date is a valid date, exactly one place further along the day line. |
| Calendar.NextPrevInverse | src/DateRange.php:80 | The day after and the day before undo each other, in either order. |
| Calendar.AddDays | src/DateRange.php:84-85 | Moving a valid date any number of days, forward or back, gives a valid date. |
| Calendar.AddDaysNumber | src/DateRange.php:84-85 | Moving n days moves exactly n places along the day line, in either direction. |
| Calendar.AddDaysAdditive | src/DateRange.php:84-85 | Moving a days and then b days is moving a + b days. |
| Calendar.AddDaysInverse | src/DateRange.php:84-85 | Moving n days and then n days back returns to the same date. |
| Timestamp.AddDay | src/DateRange.php:80 | Adding a day keeps the time of day and lands exactly 1440 wall-clock minutes later. |
| Timestamp.Shift | src/DateRange.php:84-85 | A stamp moved onto another wall clock is a valid stamp. |
| Timestamp.ShiftMinutes | src/DateRange.php:84-85 | Moving by delta minutes moves the stamp exactly delta minutes along the wall clock. |
| Timestamp.ShiftRoundTrip | src/DateRange.php:84-85 | Moving by delta and then by -delta restores the stamp exactly. |
| Timestamp.ShiftWithinDay | src/DateRange.php:84-85 | A move that stays inside the day keeps the date and changes only the time. |
| Timestamp.ShiftIntoNextDay | src/DateRange.php:84-85 | A move past midnight by less than a day lands on the next day. |
| Timestamp.YearText | src/DateRange.php:88 | The `Y` field: a non-negative year as digits denoting it, at least four of them and exactly four below 10000; a negative year as a minus sign before the digits of its magnitude. |
| Timestamp.Render | src/DateRange.php:88 | A stamp with a four-digit year renders to exactly 19 characters. |
| Timestamp.RenderRoundTrip | src/DateRange.php:88 | The rendering of a stamp with a four-digit year reads back, column by column, as that same stamp with seconds zero. |
| DateRange.Recognise | src/DateRange.php:45-77 | A shape and split the recogniser returns satisfy that shape's pattern. |
| DateRange.RecogniseFinds | src/DateRange.php:45-74 | A string of either shape is recognised as that shape with that split, although the 24-hour shape is tried first. |
| DateRange.NoMatchNoShape | src/DateRange.php:75-77 | When the matcher finds neither shape, the string has no split of either. |
| DateRange.UnrecognizedExactly | src/DateRange.php:45-77 | The parser's own error is returned if and only if the string has no split of either shape. |
| DateRange.MatchHasDigit | src/DateRange.php:45 | A match has a digit right after its shift code. |
| DateRange.NoDigitNoShape | src/DateRange.php:45-72 | A string without a digit has neither shape. |
| DateRange.NoDigitsRejected | src/DateRange.php:75-77 | A shift string without a digit is refused with the parser's own error, rendered or not, whatever the zones. |
| DateRange.ParseSpanOf | src/DateRange.php:45-74 | A string of either shape is parsed from the split its pattern gives it, with both zones resolved. |
| DateRange.RecognisedFailures | src/DateRange.php:62-74 | For a recognised string: an unknown source zone gives InvalidTimezone; with a known one, a token that is not a valid time gives InvalidTimeComponent. |
| DateRange.Rollover | src/DateRange.php:79-81 | An end earlier than the start moves exactly one day (1440 minutes) later at the same time; an end at or after the start is kept. On one date the result lies within a day from the start. |
| DateRange.RolloverRule | src/DateRange.php:79-81 | Without a target zone, the end falls on the day after the date if and only if its time is earlier than the start's; otherwise it falls on the date itself. |
| DateRange.Reproject | src/DateRange.php:83-86 | Both ends move by the same number of minutes, so the length of the shift is kept. |
| DateRange.TargetMovesBothEnds | src/DateRange.php:83-86 | A known target zone gives the target-free result with both ends moved by the same change of offset. |
| DateRange.TargetKeepsInstant | src/DateRange.php:84-85 | A successful move to a target zone keeps the instant of both ends: each end's wall-clock minutes less the target zone's UTC offset equal the target-free end's minutes less the source zone's offset. |
| DateRange.UnknownTargetFails | src/DateRange.php:84-85 | An unknown target zone fails with InvalidTimezone whenever the parse would otherwise succeed. |
| DateRange.ReprojectRoundTrip | src/DateRange.php:83-86 | Moving a span into another zone and back restores its wall-clock values exactly. |
| DateRange.Outcome | src/DateRange.php:62-86 | Never the parser's own error. A success is a valid span whose end lies at or after the start and less than a day later. |
| DateRange.ParseSpan | src/DateRange.php:22-87 | Every successful parse has its end at or after its start and less than 24 hours later on the wall clock it is shown on. |
| DateRange.Parse | src/DateRange.php:83-88 | Errors pass through unchanged. A success renders both ends so that each reads back as the parsed stamp. |
| DateRange.OutcomeSameClocks | src/DateRange.php:62-74 | After recognition, a split matters only through the times of day its two tokens denote. |
| DateRange.OutcomeSameTokens | src/DateRange.php:62-74 | After recognition, only the tokens and the meridiems of their markers matter. |
| DateRange.OnlyTokensMatter | src/DateRange.php:45-74 | The shift code, the spacing around the hyphen and before a marker, and a final line feed never change the result. |
| DateRange.OutcomeWithColon | src/DateRange.php:46-63 | A 24-hour token of four digits and the same digits with a colon in the middle yield the same result. |
| DateRange.ColonOptional | src/DateRange.php:45-63 | For any shift code and separator, "HHMM-HHMM" and "HH:MM-HH:MM" parse to the same result. |
| Scenarios.PlainDigits | tests/Unit/DateRangeTest.php:47-55 | "1900-0000" on 2022-07-22 in SAST gives 2022-07-22 19:00:00 to 2022-07-23 00:00:00. |
| Scenarios.SpacedDigits | tests/Unit/DateRangeTest.php:56-64 | "1900 - 0000" on 2022-07-22 in SAST gives 2022-07-22 19:00:00 to 2022-07-23 00:00:00. |
| Scenarios.ColonTimes | tests/Unit/DateRangeTest.php:65-73 | "19:00-00:00" on 2022-07-22 in SAST gives 2022-07-22 19:00:00 to 2022-07-23 00:00:00. |
| Scenarios.SpacedColonTimes | tests/Unit/DateRangeTest.php:74-82 | "19:00 - 00:00" on 2022-07-22 in SAST gives 2022-07-22 19:00:00 to 2022-07-23 00:00:00. |
| Scenarios.OneLetterCode | tests/Unit/DateRangeTest.php:83-91 | "L 19:00 - 00:00" on 2022-07-22 in SAST gives 2022-07-22 19:00:00 to 2022-07-23 00:00:00. |
| Scenarios.TwoLetterCode | tests/Unit/DateRangeTest.php:92-100 | "LA 19:00 - 00:00" on 2022-07-22 in SAST gives 2022-07-22 19:00:00 to 2022-07-23 00:00:00. |
| Scenarios.MorningToEvening | tests/Unit/DateRangeTest.php:101-109 | "11:00 AM - 08:00 PM" on 2022-07-22 in SAST gives 2022-07-22 11:00:00 to 2022-07-22 20:00:00. |
| Scenarios.OneLetterEvening | tests/Unit/DateRangeTest.php:110-118 | "L 7:00 PM - 12:00 AM" on 2022-07-22 in SAST gives 2022-07-22 19:00:00 to 2022-07-23 00:00:00. |
| Scenarios.TwoLetterEvening | tests/Unit/DateRangeTest.php:119-127 | "LA 7:00 PM - 12:00 AM" on 2022-07-22 in SAST gives 2022-07-22 19:00:00 to 2022-07-23 00:00:00. |
| Scenarios.UnspacedMarkers | tests/Unit/DateRangeTest.php:128-136 | "5:00PM - 02:00AM" on 2022-09-26 in SAST gives 2022-09-26 17:00:00 to 2022-09-27 02:00:00. |
| Scenarios.LondonPlainDigits | tests/Unit/DateRangeTest.php:146-155 | "1900-0000" on 2022-07-22 in BST shown in SAST gives 2022-07-22 20:00:00 to 2022-07-23 01:00:00. |
| Scenarios.LondonSpacedDigits | tests/Unit/DateRangeTest.php:156-165 | "1900 - 0000" on 2022-07-22 in BST shown in SAST gives 2022-07-22 20:00:00 to 2022-07-23 01:00:00. |
| Scenarios.LondonColonTimes | tests/Unit/DateRangeTest.php:166-175 | "19:00-00:00" on 2022-07-22 in BST shown in SAST gives 2022-07-22 20:00:00 to 2022-07-23 01:00:00. |
| Scenarios.LondonSpacedColonTimes | tests/Unit/DateRangeTest.php:176-185 | "19:00 - 00:00" on 2022-07-22 in BST shown in SAST gives 2022-07-22 20:00:00 to 2022-07-23 01:00:00. |
| Scenarios.LondonMorningToEvening | tests/Unit/DateRangeTest.php:186-195 | "11:00 AM - 08:00 PM" on 2022-07-22 in BST shown in SAST gives 2022-07-22 12:00:00 to 2022-07-22 21:00:00. |
| Scenarios.LondonOneLetterCode | tests/Unit/DateRangeTest.php:196-205 | "L 19:00 - 00:00" on 2022-07-22 in BST shown in SAST gives 2022-07-22 20:00:00 to 2022-07-23 01:00:00. |
| Scenarios.LondonTwoLetterCode | tests/Unit/DateRangeTest.php:206-215 | "LA 19:00 - 00:00" on 2022-07-22 in BST shown in SAST gives 2022-07-22 20:00:00 to 2022-07-23 01:00:00. |
| Scenarios.LondonOneLetterEvening | tests/Unit/DateRangeTest.php:216-225 | "L 7:00 PM - 12:00 AM" on 2022-07-22 in BST shown in SAST gives 2022-07-22 20:00:00 to 2022-07-23 01:00:00. |
| Scenarios.LondonTwoLetterEvening | tests/Unit/DateRangeTest.php:226-235 | "LA 7:00 PM - 12:00 AM" on 2022-07-22 in BST shown in SAST gives 2022-07-22 20:00:00 to 2022-07-23 01:00:00. |
| Scenarios.LondonShortEvening | tests/Unit/DateRangeTest.php:246-255 | "E 10:00 AM - 7:00 PM" on 2022-07-22 in BST shown in SAST gives 2022-07-22 11:00:00 to 2022-07-22 20:00:00. |
| Scenarios.LondonPaddedHours | tests/Unit/DateRangeTest.php:256-265 | "DY 08:00 AM - 06:00 PM" on 2022-07-22 in BST shown in SAST gives 2022-07-22 09:00:00 to 2022-07-22 19:00:00. |
| Scenarios.LondonShortHours | tests/Unit/DateRangeTest.php:266-275 | "E 9:00 AM - 6:00 PM" on 2022-07-22 in BST shown in SAST gives 2022-07-22 10:00:00 to 2022-07-22 19:00:00. |
| Scenarios.LondonPastMidnight | tests/Unit/DateRangeTest.php:276-285 | "L 2:00 PM - 11:00 PM" on 2022-07-22 in BST shown in SAST gives 2022-07-22 15:00:00 to 2022-07-23 00:00:00. |
| Scenarios.LondonUnspacedMarkers | tests/Unit/DateRangeTest.php:296-305 | "5:00PM - 02:00AM" on 2022-09-26 in BST shown in SAST gives 2022-09-26 18:00:00 to 2022-09-27 03:00:00. |
| Scenarios.NotARange | src/DateRange.php:75-77 | "not-a-range" on 2022-07-22 in SAST is refused as an unrecognised format. |
| Scenarios.Garbage | src/DateRange.php:75-77 | "garbage" on 2022-07-22 in SAST is refused as an unrecognised format. |

The test cases at tests/Unit/DateRangeTest.php:236-245 and 286-295 repeat
the inputs and expected results of lines 216-225 and 186-195.

## Left out

- The date library's zone database and daylight-saving rules. A `ZoneTable` gives each zone one UTC offset for the day of the shift, and a shift that crosses a daylight-saving change is moved by a single offset. The offsets the real database gives SAST or Europe/London are assumptions of the zone-change scenarios.
- The reading of the `$date` string. The date is taken as a valid `Date` (`ValidDate` is a precondition), so a malformed date string is not modelled.
- Out-of-range times. `createFromFormat` overflows an hour of 24 or more, or a minute of 60 or more, into the next hour or day, with a warning. The model reports such a time as `InvalidTimeComponent` instead. This also covers 12-hour tokens such as "13:00 PM", which the library reads as hour 25.
- Seconds and sub-minute precision: no input carries them, and every rendering ends in `:00`.
- The exception object and its message text. The model returns `Err(UnrecognizedFormat)` where the code throws.
- Failures of the regular-expression engine. When `preg_match` itself fails, for example on hitting the backtracking limit on a very long run of digits, `Preg::isMatch` throws its own exception; the model's matcher always answers, and such a string gets the model's ordinary result.
- Characters beyond bytes. The code works on byte strings and the model reads every `char` as one byte. A multi-byte UTF-8 character is several non-digits to the pattern, so a string such as "Lé 19:00-20:00" (three bytes before the space) is refused by the code, while the model, given "é" as one character, accepts it. A model string is faithful only when each of its characters is a single byte.
- Timestamp.RenderRoundTrip: states the read-back only for years 0 to 9999, the years whose rendering has the fixed 19-column layout.
- Timestamp.Render: states the length of the rendering only for years 0 to 9999, for the same reason.
- DateRange.Parse: states the read-back of both ends only for years 0 to 9999, for the same reason.
- TimeToken.ReadClock: states only the bounds of what it reads; its exact meaning is stated by `TimeToken.ReadClockText` for two-digit hours, by `TimeToken.ReadShortClock` for one-digit hours, and by the token lemmas built on them.
- The PHPUnit test class and data providers of tests/Unit/DateRangeTest.php. Their cases are proved as the `Scenarios` lemmas instead.
