/**
 * The two anchored patterns a shift-time string may take, read the way the
 * regular-expression engine reads them:
 *
 *   shift code   at most two non-digits, then at most one whitespace
 *   start token  digits, an optional colon, digits
 *   marker       nothing (24-hour shape) or an optional whitespace and an
 *                upper-case AM or PM (12-hour shape)
 *   separator    a hyphen, optionally with one whitespace on either side
 *   end token    digits, an optional colon, and at least two more digits
 *   marker       as after the start token
 *
 * and nothing else, except that the end anchor also accepts a single line
 * feed at the very end. The end token needs one digit more than the start
 * token: "19-2000" has the 24-hour shape, "2000-19" has none.
 */
module ShiftPattern {
  import opened Optional
  import opened Text

  datatype Shape = TwentyFourHour | TwelveHour

  /** The pieces a matching string splits into; the start capture is
      `start + startMarker`, the end capture `end + endMarker`. */
  datatype Reading = Reading(prefix: string, start: string, startMarker: string,
                             separator: string, end: string, endMarker: string)

  function Joined(rd: Reading): string {
    rd.prefix + (rd.start + (rd.startMarker + (rd.separator + (rd.end + rd.endMarker))))
  }

  predicate IsTokenChar(c: char) {
    IsDigit(c) || c == ':'
  }

  /** The shift code: up to two non-digits, the third (if any) whitespace. */
  predicate PrefixOk(p: string) {
    NoDigits(p) && (|p| <= 2 || (|p| == 3 && IsSpace(p[2])))
  }

  /** One or more digits, an optional colon, then at least `tail` digits. */
  predicate TokenOk(t: string, tail: nat) {
    && |t| >= 1 + tail
    && (forall i :: 0 <= i < |t| ==> IsDigit(t[i]) || (t[i] == ':' && 1 <= i < |t| - tail))
    && (forall i, j :: 0 <= i < j < |t| && t[i] == ':' ==> t[j] != ':')
  }

  /** The start token needs one digit on each side of its colon. */
  predicate StartTokenOk(t: string) {
    TokenOk(t, 1)
  }

  /** The end token needs two digits after its colon, or three without one. */
  predicate EndTokenOk(t: string) {
    TokenOk(t, 2)
  }

  predicate SeparatorOk(s: string) {
    || s == "-"
    || (|s| == 2 && ((IsSpace(s[0]) && s[1] == '-') || (s[0] == '-' && IsSpace(s[1]))))
    || (|s| == 3 && IsSpace(s[0]) && s[1] == '-' && IsSpace(s[2]))
  }

  /** What follows a token: nothing in the 24-hour shape; an optional
      whitespace and then `AM` or `PM` in the 12-hour shape. */
  predicate MarkerOk(shape: Shape, m: string) {
    match shape
    case TwentyFourHour => m == []
    case TwelveHour =>
      (|m| == 2 || (|m| == 3 && IsSpace(m[0]))) && (m[|m| - 2] == 'A' || m[|m| - 2] == 'P') && m[|m| - 1] == 'M'
  }

  predicate ReadingOk(shape: Shape, rd: Reading) {
    && PrefixOk(rd.prefix)
    && StartTokenOk(rd.start)
    && MarkerOk(shape, rd.startMarker)
    && SeparatorOk(rd.separator)
    && EndTokenOk(rd.end)
    && MarkerOk(shape, rd.endMarker)
  }

  /** `s` matches the pattern of `shape`, split as `rd`. */
  predicate Matches(shape: Shape, s: string, rd: Reading) {
    ReadingOk(shape, rd) && (s == Joined(rd) || s == Joined(rd) + "\n")
  }

  /** The number of non-digits at the front of s. */
  function LeadingNonDigits(s: string): (n: nat)
    ensures n <= |s|
    ensures forall k :: 0 <= k < n ==> !IsDigit(s[k])
    ensures n < |s| ==> IsDigit(s[n])
  {
    if s == [] || IsDigit(s[0]) then 0 else 1 + LeadingNonDigits(s[1..])
  }

  /** The number of digits and colons at the front of s. */
  function LeadingTokenChars(s: string): (n: nat)
    ensures n <= |s|
    ensures forall k :: 0 <= k < n ==> IsTokenChar(s[k])
    ensures n < |s| ==> !IsTokenChar(s[n])
  {
    if s == [] || !IsTokenChar(s[0]) then 0 else 1 + LeadingTokenChars(s[1..])
  }

  /** The length of the marker at the front of s, if one is there. */
  function MarkerLength(shape: Shape, s: string): (r: Option<nat>)
    ensures r.Some? ==> r.value <= |s| && MarkerOk(shape, s[..r.value])
  {
    match shape
    case TwentyFourHour => Some(0)
    case TwelveHour =>
      if |s| >= 2 && MarkerOk(shape, s[..2]) then Some(2)
      else if |s| >= 3 && MarkerOk(shape, s[..3]) then Some(3)
      else None
  }

  lemma SplitAt(s: string, n: nat)
    requires n <= |s|
    ensures s == s[..n] + s[n..]
  {
  }

  /** The string the patterns are run against: the end anchor lets one final
      line feed stand outside the match. */
  function Body(s: string): (b: string)
    ensures s == b || s == b + "\n"
  {
    if |s| > 0 && s[|s| - 1] == '\n' then s[..|s| - 1] else s
  }

  /** Cuts the part after the start token's marker: the separator runs to
      the next digit, the end token is the run of digits and colons there,
      and whatever follows is the end marker. */
  function SplitTail(r: string): (rd: Reading)
    ensures rd.prefix == rd.start == rd.startMarker == []
    ensures rd.separator + (rd.end + rd.endMarker) == r
  {
    var g := LeadingNonDigits(r);
    var r4 := r[g..];
    var t := LeadingTokenChars(r4);
    SplitAt(r4, t);
    SplitAt(r, g);
    Reading([], [], [], r[..g], r4[..t], r4[t..])
  }

  /** Cuts the part from the start token on: the token is the run of digits
      and colons at the front, then comes its marker, then the tail. */
  function SplitRest(shape: Shape, r: string): (x: Option<Reading>)
    ensures x.Some? ==> x.value.prefix == []
    ensures x.Some? ==> x.value.start + (x.value.startMarker + (x.value.separator + (x.value.end + x.value.endMarker))) == r
  {
    var t := LeadingTokenChars(r);
    var r2 := r[t..];
    match MarkerLength(shape, r2)
    case None => None
    case Some(m) =>
      SplitAt(r2, m);
      SplitAt(r, t);
      Some(SplitTail(r2[m..]).(start := r[..t], startMarker := r2[..m]))
  }

  /** Cuts a string where the pieces of a match would have to lie; the
      shift code runs to the first digit. */
  function Split(shape: Shape, b: string): (r: Option<Reading>)
    ensures r.Some? ==> Joined(r.value) == b
  {
    var p := LeadingNonDigits(b);
    SplitAt(b, p);
    match SplitRest(shape, b[p..])
    case None => None
    case Some(rd) => Some(rd.(prefix := b[..p]))
  }

  /** The matcher: cut the string, then check every piece against its pattern. */
  function Match(shape: Shape, s: string): (r: Option<Reading>)
    ensures r.Some? ==> Matches(shape, s, r.value)
  {
    match Split(shape, Body(s))
    case Some(rd) => if ReadingOk(shape, rd) then Some(rd) else None
    case None => None
  }

  /** Non-digits followed by a digit (or nothing): the non-digit run is exactly them. */
  lemma NonDigitRunIs(a: string, b: string)
    requires NoDigits(a) && (b == [] || IsDigit(b[0]))
    ensures LeadingNonDigits(a + b) == |a|
  {
    var s := a + b;
    assert forall k :: 0 <= k < |a| ==> s[k] == a[k];
    assert |a| < |s| ==> s[|a|] == b[0];
  }

  /** Digits and colons followed by anything else (or nothing): the token run is exactly them. */
  lemma TokenRunIs(a: string, b: string)
    requires forall k :: 0 <= k < |a| ==> IsTokenChar(a[k])
    requires b == [] || !IsTokenChar(b[0])
    ensures LeadingTokenChars(a + b) == |a|
  {
    var s := a + b;
    assert forall k :: 0 <= k < |a| ==> s[k] == a[k];
    assert |a| < |s| ==> s[|a|] == b[0];
  }

  /** A well-formed token starts and ends with a digit. */
  lemma TokenEnds(t: string, tail: nat)
    requires tail >= 1 && TokenOk(t, tail)
    ensures IsDigit(t[0]) && IsDigit(t[|t| - 1])
  {
  }

  /** A well-formed marker is found, whole, at the front of whatever follows it. */
  lemma MarkerFound(shape: Shape, m: string, rest: string)
    requires MarkerOk(shape, m)
    ensures MarkerLength(shape, m + rest) == Some(|m|)
  {
    var s := m + rest;
    if shape == TwelveHour {
      assert s[..|m|] == m;
      if |m| == 3 {
        assert s[..2][0] == m[0];
      }
    }
  }

  /** The end anchor's line feed is never part of a match: a match ends in a
      digit or in `M`. */
  lemma BodyOfMatch(shape: Shape, s: string, rd: Reading)
    requires Matches(shape, s, rd)
    ensures Body(s) == Joined(rd)
  {
    var b := Joined(rd);
    TokenEnds(rd.end, 2);
    assert b[|b| - 1] != '\n' by {
      if rd.endMarker == [] {
        assert b[|b| - 1] == rd.end[|rd.end| - 1];
      } else {
        assert b[|b| - 1] == rd.endMarker[|rd.endMarker| - 1];
      }
    }
    if s == b + "\n" {
      assert s[..|s| - 1] == b;
    }
  }

  predicate TokenChars(t: string) {
    forall k :: 0 <= k < |t| ==> IsTokenChar(t[k])
  }

  /** Cutting a separator, an end token and its marker finds those pieces. */
  lemma SplitTailOf(sep: string, end: string, marker: string)
    requires NoDigits(sep) && end != [] && IsDigit(end[0]) && TokenChars(end)
    requires marker == [] || !IsTokenChar(marker[0])
    ensures SplitTail(sep + (end + marker)) == Reading([], [], [], sep, end, marker)
  {
    var tail := end + marker;
    assert tail[0] == end[0];
    NonDigitRunIs(sep, tail);
    assert (sep + tail)[..|sep|] == sep && (sep + tail)[|sep|..] == tail;
    TokenRunIs(end, marker);
    assert tail[..|end|] == end && tail[|end|..] == marker;
  }

  /** What the cutting relies on: each piece stops where the next begins. */
  predicate Cuttable(shape: Shape, rd: Reading) {
    && NoDigits(rd.prefix)
    && rd.start != [] && IsDigit(rd.start[0]) && TokenChars(rd.start)
    && MarkerOk(shape, rd.startMarker)
    && rd.startMarker + rd.separator != [] && !IsTokenChar((rd.startMarker + rd.separator)[0])
    && NoDigits(rd.separator)
    && rd.end != [] && IsDigit(rd.end[0]) && TokenChars(rd.end)
    && (rd.endMarker == [] || !IsTokenChar(rd.endMarker[0]))
  }

  lemma ReadingOkCuttable(shape: Shape, rd: Reading)
    requires ReadingOk(shape, rd)
    ensures Cuttable(shape, rd)
  {
    TokenEnds(rd.start, 1);
    TokenEnds(rd.end, 2);
    assert (rd.startMarker + rd.separator)[0] == if rd.startMarker == [] then rd.separator[0] else rd.startMarker[0];
  }

  /** Cutting the pieces from the start token on finds those pieces. */
  lemma SplitRestOf(shape: Shape, rd: Reading)
    requires Cuttable(shape, rd) && rd.prefix == []
    ensures SplitRest(shape, Joined(rd)) == Some(rd)
  {
    var r3 := rd.separator + (rd.end + rd.endMarker);
    var r2 := rd.startMarker + r3;
    var r := rd.start + r2;
    assert Joined(rd) == r;
    assert r2[0] == (rd.startMarker + rd.separator)[0];
    TokenRunIs(rd.start, r2);
    assert r[..|rd.start|] == rd.start && r[|rd.start|..] == r2;
    MarkerFound(shape, rd.startMarker, r3);
    assert r2[..|rd.startMarker|] == rd.startMarker && r2[|rd.startMarker|..] == r3;
    SplitTailOf(rd.separator, rd.end, rd.endMarker);
  }

  /** Cutting the joined pieces of a well-formed reading finds those pieces. */
  lemma SplitOfJoined(shape: Shape, rd: Reading)
    requires ReadingOk(shape, rd)
    ensures Split(shape, Joined(rd)) == Some(rd)
  {
    ReadingOkCuttable(shape, rd);
    var rest := rd.(prefix := []);
    var b := Joined(rd);
    assert b == rd.prefix + Joined(rest);
    assert Joined(rest)[0] == rd.start[0];
    NonDigitRunIs(rd.prefix, Joined(rest));
    assert b[..|rd.prefix|] == rd.prefix && b[|rd.prefix|..] == Joined(rest);
    SplitRestOf(shape, rest);
  }

  /** The matcher finds every way a string matches, so the split of a
      matching string (and with it both capture groups) is unique. */
  lemma MatchComplete(shape: Shape, s: string, rd: Reading)
    requires Matches(shape, s, rd)
    ensures Match(shape, s) == Some(rd)
  {
    BodyOfMatch(shape, s, rd);
    SplitOfJoined(shape, rd);
  }

  /** When the matcher finds nothing, the string has no split of that shape. */
  lemma MatchNoneComplete(shape: Shape, s: string, rd: Reading)
    requires Match(shape, s).None?
    ensures !Matches(shape, s, rd)
  {
    if Matches(shape, s, rd) {
      MatchComplete(shape, s, rd);
    }
  }

  /** Two splits of one string under one shape are the same split. */
  lemma ReadingUnique(shape: Shape, s: string, rd1: Reading, rd2: Reading)
    requires Matches(shape, s, rd1) && Matches(shape, s, rd2)
    ensures rd1 == rd2
  {
    MatchComplete(shape, s, rd1);
    MatchComplete(shape, s, rd2);
  }

  /** What a match ends with: a digit in the 24-hour shape, `M` in the 12-hour one. */
  lemma MatchLast(shape: Shape, s: string, rd: Reading)
    requires Matches(shape, s, rd)
    ensures Body(s) != []
    ensures shape == TwentyFourHour ==> IsDigit(Body(s)[|Body(s)| - 1])
    ensures shape == TwelveHour ==> Body(s)[|Body(s)| - 1] == 'M'
  {
    BodyOfMatch(shape, s, rd);
    var b := Joined(rd);
    TokenEnds(rd.end, 2);
    if shape == TwentyFourHour {
      assert b[|b| - 1] == rd.end[|rd.end| - 1];
    } else {
      assert b[|b| - 1] == rd.endMarker[|rd.endMarker| - 1];
    }
  }

  /** No string has both shapes, so trying the 24-hour shape first decides nothing. */
  lemma ShapesDisjoint(s: string, rd1: Reading, rd2: Reading)
    requires Matches(TwentyFourHour, s, rd1)
    ensures !Matches(TwelveHour, s, rd2)
  {
    MatchLast(TwentyFourHour, s, rd1);
    if Matches(TwelveHour, s, rd2) {
      MatchLast(TwelveHour, s, rd2);
    }
  }
}
