/**
 * src/utils/timeConverter.ts: the time-phrase parser, the day/night icon table, the rounded
 * hour and day differences, the relative-difference phrase and the text shared by "Copy All".
 * Instants are integer milliseconds since the epoch.
 */
module TimeConverter {
  import opened Wrappers
  import opened Strings
  import opened Types

  /** A parsed time of day; `timezone` is always empty (the caller picks the zone). */
  datatype ParsedTime = ParsedTime(hours: int, minutes: int, timezone: string)

  datatype Meridiem = AM | PM

  /** The captures of `/^(\d{1,2})(?::(\d{2}))?\s*(am|pm)?$/i` on a lowercased phrase,
    * together with the white space matched between them. */
  datatype TimeMatch = TimeMatch(hourDigits: string, minuteDigits: Option<string>, spacing: string, meridiem: Option<Meridiem>)

  /** The shapes the pattern admits: one or two hour digits, optionally a colon and exactly two
    * minute digits, any white space, optionally "am" or "pm". */
  predicate WellFormedMatch(m: TimeMatch) {
    && 1 <= |m.hourDigits| <= 2 && AllDigits(m.hourDigits)
    && (m.minuteDigits.Some? ==> |m.minuteDigits.value| == 2 && AllDigits(m.minuteDigits.value))
    && AllSpaces(m.spacing)
  }

  function MeridiemText(p: Option<Meridiem>): string {
    match p
    case None => ""
    case Some(AM) => "am"
    case Some(PM) => "pm"
  }

  function MinuteText(minuteDigits: Option<string>): string {
    match minuteDigits
    case None => ""
    case Some(d) => ":" + d
  }

  /** The text a match spells out. */
  function Render(m: TimeMatch): string {
    m.hourDigits + (MinuteText(m.minuteDigits) + (m.spacing + MeridiemText(m.meridiem)))
  }

  /** The longest all-space prefix. */
  function SpacePrefix(s: string): (r: string)
    ensures |r| <= |s| && r == s[..|r|] && AllSpaces(r)
    ensures |r| < |s| ==> !IsSpace(s[|r|])
  {
    if s != [] && IsSpace(s[0]) then [s[0]] + SpacePrefix(s[1..]) else []
  }

  lemma {:induction false} SpacePrefixOf(a: string, b: string)
    requires AllSpaces(a) && (b == [] || !IsSpace(b[0]))
    ensures SpacePrefix(a + b) == a
  {
    if a != [] {
      assert (a + b)[1..] == a[1..] + b;
      SpacePrefixOf(a[1..], b);
      assert [a[0]] + a[1..] == a;
    } else {
      assert a + b == b;
    }
  }

  /** The optional minute group `(?::(\d{2}))?` at the front of `rest`, and what follows it. */
  function MatchMinuteGroup(rest: string): (r: (Option<string>, string))
    ensures r.0.Some? ==> |r.0.value| == 2 && AllDigits(r.0.value)
    ensures rest == MinuteText(r.0) + r.1
  {
    if |rest| >= 3 && rest[0] == ':' && IsDigit(rest[1]) && IsDigit(rest[2]) then
      assert rest == ":" + rest[1..3] + rest[3..];
      (Some(rest[1..3]), rest[3..])
    else (None, rest)
  }

  /** `\s*(am|pm)?$` on what follows the minutes. */
  function MatchMarker(t: string): (r: Option<(string, Option<Meridiem>)>)
    ensures r.Some? ==> AllSpaces(r.value.0) && r.value.0 + MeridiemText(r.value.1) == t
  {
    var sp := SpacePrefix(t);
    var tail := t[|sp|..];
    assert t == sp + tail;
    if tail == "" then Some((sp, None))
    else if tail == "am" then Some((sp, Some(AM)))
    else if tail == "pm" then Some((sp, Some(PM)))
    else None
  }

  /** The regular expression of parseTimeInput. The hour group takes the whole leading digit run:
    * a digit can follow neither the hours nor the minutes, so backtracking never helps. */
  function MatchTime(s: string): (r: Option<TimeMatch>)
    ensures r.Some? ==> WellFormedMatch(r.value) && Render(r.value) == s
  {
    var h := DigitPrefix(s);
    if |h| < 1 || |h| > 2 then None
    else
      var rest := s[|h|..];
      assert s == h + rest;
      var (minutes, afterMinutes) := MatchMinuteGroup(rest);
      match MatchMarker(afterMinutes)
      case None => None
      case Some((sp, meridiem)) =>
        Some(TimeMatch(h, minutes, sp, meridiem))
  }

  lemma MatchMarkerOf(sp: string, meridiem: Option<Meridiem>)
    requires AllSpaces(sp)
    ensures MatchMarker(sp + MeridiemText(meridiem)) == Some((sp, meridiem))
  {
    var mer := MeridiemText(meridiem);
    SpacePrefixOf(sp, mer);
    assert (sp + mer)[|sp|..] == mer;
  }

  lemma MatchMinuteGroupOf(minuteDigits: Option<string>, after: string)
    requires minuteDigits.Some? ==> |minuteDigits.value| == 2 && AllDigits(minuteDigits.value)
    requires after == [] || after[0] != ':'
    ensures MatchMinuteGroup(MinuteText(minuteDigits) + after) == (minuteDigits, after)
  {
    if minuteDigits.Some? {
      var rest := MinuteText(minuteDigits) + after;
      assert rest[1..3] == minuteDigits.value && rest[3..] == after;
    } else {
      assert MinuteText(minuteDigits) + after == after;
    }
  }

  /** Every shape the pattern admits is matched, with exactly its captures. */
  lemma MatchTimeComplete(m: TimeMatch)
    requires WellFormedMatch(m)
    ensures MatchTime(Render(m)) == Some(m)
  {
    var after := m.spacing + MeridiemText(m.meridiem);
    var rest := MinuteText(m.minuteDigits) + after;
    var s := Render(m);
    assert s == m.hourDigits + rest;
    MatchMarkerOf(m.spacing, m.meridiem);
    MatchMinuteGroupOf(m.minuteDigits, after);
    DigitPrefixOf(m.hourDigits, rest);
    assert DigitPrefix(s) == m.hourDigits;
    assert s[|m.hourDigits|..] == rest;
    assert MatchMinuteGroup(rest) == (m.minuteDigits, after);
    assert MatchMarker(after) == Some((m.spacing, m.meridiem));
  }

  /** The 24-hour value of a validated hour: pm adds 12 except to 12, am turns 12 into 0, and
    * without a marker 1 to 7 are read as afternoon hours. */
  function To24Hour(hours: int, meridiem: Option<Meridiem>): (r: int)
    requires 0 <= hours <= 23 && (meridiem.Some? ==> 1 <= hours <= 12)
    ensures 0 <= r <= 23
    ensures meridiem.Some? ==> r % 12 == hours % 12 && (r >= 12 <==> meridiem == Some(PM))
    ensures meridiem.None? ==> (r == hours + 12 <==> 1 <= hours <= 7) && (r == hours || r == hours + 12)
  {
    match meridiem
    case Some(PM) => if hours != 12 then hours + 12 else hours
    case Some(AM) => if hours == 12 then 0 else hours
    case None => if hours <= 12 && 1 <= hours <= 7 then hours + 12 else hours
  }

  /** The minutes a match denotes: 0 when the minute group is absent. */
  function MatchMinutes(m: TimeMatch): nat
    requires WellFormedMatch(m)
  {
    if m.minuteDigits.Some? then DigitsValue(m.minuteDigits.value) else 0
  }

  /** The validation and conversion applied to a pattern match. */
  function ConvertMatch(m: TimeMatch): (r: Option<ParsedTime>)
    requires WellFormedMatch(m)
    ensures r.Some? ==> 0 <= r.value.hours <= 23 && 0 <= r.value.minutes <= 59 && r.value.timezone == ""
  {
    var hours := DigitsValue(m.hourDigits);
    var minutes := MatchMinutes(m);
    if hours > 23 || minutes > 59 then None
    else if m.meridiem.Some? && (hours > 12 || hours == 0) then None
    else Some(ParsedTime(To24Hour(hours, m.meridiem), minutes, ""))
  }

  /** The phrase as parseTimeInput sees it: trimmed and lowercased. */
  function Clean(input: string): string {
    Lower(Trim(input))
  }

  /** parseTimeInput: None stands for `null`. */
  function ParseTimeInput(input: string): (r: Option<ParsedTime>)
    ensures r.Some? ==> 0 <= r.value.hours <= 23 && 0 <= r.value.minutes <= 59 && r.value.timezone == ""
  {
    var clean := Clean(input);
    if clean == "noon" || clean == "12 pm" then Some(ParsedTime(12, 0, ""))
    else if clean == "midnight" || clean == "12 am" then Some(ParsedTime(0, 0, ""))
    else match MatchTime(clean)
      case None => None
      case Some(m) => ConvertMatch(m)
  }

  /** The four literal phrases, after trimming and lowercasing. */
  lemma ParseSpecialPhrases(input: string)
    ensures Clean(input) in {"noon", "12 pm"} ==> ParseTimeInput(input) == Some(ParsedTime(12, 0, ""))
    ensures Clean(input) in {"midnight", "12 am"} ==> ParseTimeInput(input) == Some(ParsedTime(0, 0, ""))
  {
  }

  /** "12" reads as twelve. */
  lemma TwelveDigits()
    ensures AllDigits("12") && DigitsValue("12") == 12
  {
    assert "12"[..1] == "1";
    assert "1"[..0] == "";
  }

  /** The shortcut for "12 pm" and "12 am" gives what the general rule would give. */
  lemma SpecialPhrasesAgreeWithPattern()
    ensures MatchTime("12 pm") == Some(TimeMatch("12", None, " ", Some(PM)))
    ensures MatchTime("12 am") == Some(TimeMatch("12", None, " ", Some(AM)))
    ensures ConvertMatch(TimeMatch("12", None, " ", Some(PM))) == Some(ParsedTime(12, 0, ""))
    ensures ConvertMatch(TimeMatch("12", None, " ", Some(AM))) == Some(ParsedTime(0, 0, ""))
  {
    var pm := TimeMatch("12", None, " ", Some(PM));
    var am := TimeMatch("12", None, " ", Some(AM));
    TwelveDigits();
    assert WellFormedMatch(pm) && WellFormedMatch(am);
    assert Render(pm) == "12 pm" && Render(am) == "12 am";
    MatchTimeComplete(pm);
    MatchTimeComplete(am);
  }

  /** A phrase of the pattern's shape: rejected exactly when the hours exceed 23, the minutes
    * exceed 59, or a marker comes with hour 0 or an hour above 12; otherwise converted. */
  lemma ParseOnPattern(input: string, m: TimeMatch)
    requires WellFormedMatch(m) && Clean(input) == Render(m)
    ensures var hours := DigitsValue(m.hourDigits);
            var minutes := MatchMinutes(m);
            ParseTimeInput(input) ==
              if hours > 23 || minutes > 59 || (m.meridiem.Some? && (hours == 0 || hours > 12)) then None
              else Some(ParsedTime(To24Hour(hours, m.meridiem), minutes, ""))
  {
    var clean := Clean(input);
    assert clean[0] == m.hourDigits[0];
    assert clean != "noon" && clean != "midnight";
    MatchTimeComplete(m);
    if clean == "12 pm" || clean == "12 am" {
      SpecialPhrasesAgreeWithPattern();
    }
  }

  /** A phrase that is neither a literal nor of the pattern's shape is rejected. */
  lemma ParseOffPattern(input: string)
    requires Clean(input) !in {"noon", "12 pm", "midnight", "12 am"}
    requires forall m :: WellFormedMatch(m) ==> Render(m) != Clean(input)
    ensures ParseTimeInput(input) == None
  {
  }

  /** getDayNightIcon: [5,8) sunrise, [8,17) day, [17,20) sunset, any other hour night. */
  function GetDayNightIcon(hour: int): (icon: string)
    ensures icon == SunriseIcon <==> 5 <= hour < 8
    ensures icon == DayIcon <==> 8 <= hour < 17
    ensures icon == SunsetIcon <==> 17 <= hour < 20
    ensures icon == NightIcon <==> hour < 5 || hour >= 20
  {
    if 5 <= hour < 8 then SunriseIcon
    else if 8 <= hour < 17 then DayIcon
    else if 17 <= hour < 20 then SunsetIcon
    else NightIcon
  }

  const HourMs: int := 1000 * 60 * 60
  const DayMs: int := 1000 * 60 * 60 * 24

  /** `Math.round(d / unit)` for a positive unit: halves round up. */
  function RoundedQuotient(d: int, unit: int): int
    requires unit > 0
  {
    (2 * d + unit) / (2 * unit)
  }

  /** calculateHourDifference: the difference rounded to the nearest hour, halves up. */
  function CalculateHourDifference(date1: int, date2: int): (r: int)
    ensures -HourMs <= 2 * ((date2 - date1) - r * HourMs) < HourMs
  {
    RoundedQuotient(date2 - date1, HourMs)
  }

  /** A whole number of hours apart gives exactly that number; equal instants give 0. */
  lemma HourDifferenceOfWholeHours(date1: int, k: int)
    ensures CalculateHourDifference(date1, date1 + k * HourMs) == k
  {
    var r := CalculateHourDifference(date1, date1 + k * HourMs);
    assert -HourMs <= 2 * (k - r) * HourMs < HourMs;
  }

  /** calculateDayDifference: the distance between the two local midnights, rounded to whole
    * days. `startOfDay` is the calendar oracle behind `new Date(y, m, d)`. */
  function CalculateDayDifference(startOfDay: int -> int, date1: int, date2: int): (r: int)
    ensures -DayMs <= 2 * ((startOfDay(date2) - startOfDay(date1)) - r * DayMs) < DayMs
  {
    RoundedQuotient(startOfDay(date2) - startOfDay(date1), DayMs)
  }

  /** Two instants of the same calendar day are 0 days apart. */
  lemma DayDifferenceOfSameDay(startOfDay: int -> int, date1: int, date2: int)
    requires startOfDay(date1) == startOfDay(date2)
    ensures CalculateDayDifference(startOfDay, date1, date2) == 0
  {
    var r := CalculateDayDifference(startOfDay, date1, date2);
    assert -DayMs <= 2 * (0 - r) * DayMs < DayMs;
  }

  function Abs(n: int): nat {
    if n < 0 then -n else n
  }

  /** The hour clause: "N hr" or "N hrs", then "ahead" or "behind". */
  function HourClause(hourDiff: int): string
    requires hourDiff != 0
  {
    var n := Abs(hourDiff);
    NatToString(n) + " hr" + (if n == 1 then "" else "s") + (if hourDiff > 0 then " ahead" else " behind")
  }

  /** The day clause: "+1 day", "+N days", "-1 day" or "-N days". */
  function DayClause(dayDiff: int): string
    requires dayDiff != 0
  {
    if dayDiff == 1 then "+1 day"
    else if dayDiff > 0 then "+" + NatToString(dayDiff) + " days"
    else if dayDiff == -1 then "-1 day"
    else IntToString(dayDiff) + " days"
  }

  /** The relative difference as a phrase: "Same time" when both differences are 0, otherwise
    * the non-zero clauses joined by ", ". */
  function RelativeTimeDifference(hourDiff: int, dayDiff: int): string {
    var clauses := (if hourDiff != 0 then [HourClause(hourDiff)] else [])
                 + (if dayDiff != 0 then [DayClause(dayDiff)] else []);
    if clauses == [] then "Same time" else Join(clauses, ", ")
  }

  /** formatRelativeTimeDifference, building the phrase step by step as the source does. */
  method FormatRelativeTimeDifference(hourDiff: int, dayDiff: int) returns (r: string)
    ensures r == RelativeTimeDifference(hourDiff, dayDiff)
  {
    if hourDiff == 0 && dayDiff == 0 {
      return "Same time";
    }
    var result := "";
    if hourDiff > 0 {
      result := NatToString(hourDiff) + " hr" + (if hourDiff == 1 then "" else "s") + " ahead";
    } else if hourDiff < 0 {
      result := NatToString(Abs(hourDiff)) + " hr" + (if Abs(hourDiff) == 1 then "" else "s") + " behind";
    }
    assert result == (if hourDiff != 0 then HourClause(hourDiff) else "");
    assert hourDiff != 0 ==> Join([HourClause(hourDiff)], ", ") == HourClause(hourDiff);
    if dayDiff > 0 {
      var dayText := if dayDiff == 1 then "+1 day" else "+" + NatToString(dayDiff) + " days";
      assert dayText == DayClause(dayDiff);
      result := if result != "" then result + ", " + dayText else dayText;
    } else if dayDiff < 0 {
      var dayText := if dayDiff == -1 then "-1 day" else IntToString(dayDiff) + " days";
      assert dayText == DayClause(dayDiff);
      result := if result != "" then result + ", " + dayText else dayText;
    }
    assert hourDiff != 0 && dayDiff != 0 ==>
      Join([HourClause(hourDiff), DayClause(dayDiff)], ", ") == HourClause(hourDiff) + ", " + DayClause(dayDiff);
    assert hourDiff != 0 ==> HourClause(hourDiff) != "";
    r := if result != "" then result else "Same time";
  }

  /** The phrase is "Same time" exactly when both differences are 0; otherwise it opens with the
    * hour clause when the hours differ and with the day clause when only the days do. */
  lemma {:induction false} SameTimeExactly(hourDiff: int, dayDiff: int)
    ensures RelativeTimeDifference(hourDiff, dayDiff) == "Same time" <==> hourDiff == 0 && dayDiff == 0
    ensures hourDiff != 0 ==> RelativeTimeDifference(hourDiff, dayDiff)[..|HourClause(hourDiff)|] == HourClause(hourDiff)
    ensures hourDiff == 0 && dayDiff != 0 ==> RelativeTimeDifference(hourDiff, dayDiff) == DayClause(dayDiff)
  {
    var r := RelativeTimeDifference(hourDiff, dayDiff);
    if hourDiff != 0 {
      var h := HourClause(hourDiff);
      assert r[..|h|] == h;
      assert IsDigit(r[0]);
    } else if dayDiff != 0 {
      var d := DayClause(dayDiff);
      assert r == d;
      assert d[0] == '+' || d[0] == '-';
    }
  }

  /** The record formatConversionForSharing reads (the `ConversionResult` interface of this file). */
  datatype ConversionResult = ConversionResult(
    cityId: string, cityName: string, country: string, timezone: string, convertedTime: int,
    timeString: string, dateString: string, dayDifference: int, hourDifference: int,
    dayNightIcon: string, relativeDifference: string)

  /** `s.split('/').pop()`: the text after the last '/', or all of `s` when there is none. */
  function LastSegment(s: string): (r: string)
    ensures '/' !in r
    ensures |r| <= |s| && r == s[|s| - |r|..]
    ensures |r| < |s| ==> s[|s| - |r| - 1] == '/'
  {
    if s == [] then []
    else if s[|s| - 1] == '/' then []
    else LastSegment(s[..|s| - 1]) + [s[|s| - 1]]
  }

  /** `replace(from, to)` with a one-character pattern: only the first occurrence changes. */
  function ReplaceFirst(s: string, from: char, to: char): (r: string)
    ensures |r| == |s|
    ensures from !in s ==> r == s
  {
    if s == [] then []
    else if s[0] == from then [to] + s[1..]
    else [s[0]] + ReplaceFirst(s[1..], from, to)
  }

  /** Up to and including the first `from` the replacement maps `from` to `to` (so that first
    * occurrence becomes `to` and nothing before it changes); after it every character stays. */
  lemma ReplaceFirstSpec(s: string, from: char, to: char)
    ensures forall k :: 0 <= k < |s| && from !in s[..k] ==>
              ReplaceFirst(s, from, to)[k] == (if s[k] == from then to else s[k])
    ensures forall k :: 0 <= k < |s| && from in s[..k] ==> ReplaceFirst(s, from, to)[k] == s[k]
  {
    forall k | 0 <= k < |s| {
      ReplaceFirstIndex(s, from, to, k);
    }
  }

  /** ReplaceFirstSpec at one position. */
  lemma {:induction false} ReplaceFirstIndex(s: string, from: char, to: char, k: int)
    requires 0 <= k < |s|
    ensures from !in s[..k] ==> ReplaceFirst(s, from, to)[k] == (if s[k] == from then to else s[k])
    ensures from in s[..k] ==> ReplaceFirst(s, from, to)[k] == s[k]
  {
    if s[0] == from {
      if k > 0 {
        assert s[..k][0] == from;
      }
    } else if k > 0 {
      ReplaceFirstIndex(s[1..], from, to, k - 1);
      assert s[..k] == [s[0]] + s[1..][..k - 1];
      assert ReplaceFirst(s, from, to)[k] == ReplaceFirst(s[1..], from, to)[k - 1];
    }
  }

  /** The zone label of the shared text: the last path segment with its first '_' read as a
    * space, or the whole identifier when that segment is empty. */
  function TimezoneLabel(timezone: string): (r: string)
    ensures LastSegment(timezone) == [] ==> r == timezone
    ensures LastSegment(timezone) != [] ==> r == ReplaceFirst(LastSegment(timezone), '_', ' ') && '/' !in r
  {
    var seg := ReplaceFirst(LastSegment(timezone), '_', ' ');
    assert '/' !in seg by {
      ReplaceFirstKeepsOut(LastSegment(timezone), '_', ' ', '/');
    }
    if seg == [] then timezone else seg
  }

  /** An identifier without '_' whose last segment is not empty is labelled by that segment
    * unchanged: "America/Chicago" reads "Chicago" and "UTC" reads "UTC". */
  lemma TimezoneLabelPlain(timezone: string, prefix: string, seg: string)
    requires timezone == prefix + "/" + seg || (timezone == seg && '/' !in seg)
    requires '/' !in seg && '_' !in seg && seg != []
    ensures TimezoneLabel(timezone) == seg
  {
    if timezone == prefix + "/" + seg {
      LastSegmentAfter(prefix, seg);
    } else {
      LastSegmentWhole(seg);
    }
  }

  /** Without any '/', the last segment is the whole identifier. */
  lemma LastSegmentWhole(s: string)
    requires '/' !in s
    ensures LastSegment(s) == s
  {
  }

  /** "America/Chicago" is labelled "Chicago". */
  lemma ChicagoLabel()
    ensures TimezoneLabel("America/Chicago") == "Chicago"
  {
    TimezoneLabelPlain("America/Chicago", "America", "Chicago");
  }

  /** "America/New_York" is labelled "New York". */
  lemma NewYorkLabel()
    ensures TimezoneLabel("America/New_York") == "New York"
  {
    var zone, caption := "America/New_York", "New York";
    assert zone == "America" + "/" + ("New" + "_" + "York") by {
      assert |zone| == 16;
      assert forall k :: 0 <= k < 16 ==> zone[k] == ("America" + "/" + ("New" + "_" + "York"))[k];
    }
    assert caption == "New" + " " + "York" by {
      assert |caption| == 8;
      assert forall k :: 0 <= k < 8 ==> caption[k] == ("New" + " " + "York")[k];
    }
    TimezoneLabelOf("America", "New", "York");
  }

  /** "UTC" is labelled "UTC". */
  lemma UtcLabel()
    ensures TimezoneLabel("UTC") == "UTC"
  {
    TimezoneLabelPlain("UTC", "", "UTC");
  }

  /** Replacing never brings in a character other than the replacement. */
  lemma {:induction false} ReplaceFirstKeepsOut(s: string, from: char, to: char, c: char)
    requires c !in s && c != to
    ensures c !in ReplaceFirst(s, from, to)
  {
    if s != [] && s[0] != from {
      assert c !in s[1..] by {
        assert forall k :: 0 <= k < |s[1..]| ==> s[1..][k] == s[k + 1];
      }
      ReplaceFirstKeepsOut(s[1..], from, to, c);
    }
  }

  /** A zone identifier whose last segment has an underscore: that segment with its first
    * underscore read as a space. */
  lemma TimezoneLabelOf(region: string, first: string, rest: string)
    requires '/' !in first && '/' !in rest && '_' !in first
    ensures TimezoneLabel(region + "/" + (first + "_" + rest)) == first + " " + rest
  {
    var seg := first + "_" + rest;
    assert '/' !in seg by {
      assert forall i :: 0 <= i < |seg| ==> seg[i] == '_' || seg[i] in first || seg[i] in rest;
    }
    LastSegmentAfter(region, seg);
    ReplaceFirstAt(first, rest);
  }

  /** The last segment is what follows the last '/'. */
  lemma {:induction false} LastSegmentAfter(prefix: string, seg: string)
    requires '/' !in seg
    ensures LastSegment(prefix + "/" + seg) == seg
  {
    var s := prefix + "/" + seg;
    if seg == [] {
      assert s[|s| - 1] == '/';
    } else {
      var t := seg[..|seg| - 1];
      var c := seg[|seg| - 1];
      assert seg == t + [c];
      assert '/' !in t by {
        assert forall k :: 0 <= k < |t| ==> t[k] == seg[k];
      }
      assert s == (prefix + "/" + t) + [c];
      assert s[..|s| - 1] == prefix + "/" + t;
      assert s[|s| - 1] == c && c != '/';
      LastSegmentAfter(prefix, t);
    }
  }

  /** Only the first '_' becomes a space. */
  lemma {:induction false} ReplaceFirstAt(a: string, b: string)
    requires '_' !in a
    ensures ReplaceFirst(a + "_" + b, '_', ' ') == a + " " + b
  {
    if a == [] {
      assert a + "_" + b == "_" + b;
      assert ("_" + b)[1..] == b;
    } else {
      assert (a + "_" + b)[1..] == a[1..] + "_" + b;
      ReplaceFirstAt(a[1..], b);
      assert [a[0]] + (a[1..] + " " + b) == a + " " + b;
    }
  }

  function ShareLine(r: ConversionResult): string {
    r.cityName + ": " + r.timeString + " " + r.dayNightIcon + " (" + r.relativeDifference + ")"
  }

  function ShareLines(results: seq<ConversionResult>): (lines: seq<string>)
    ensures |lines| == |results|
    ensures forall i :: 0 <= i < |results| ==> lines[i] == ShareLine(results[i])
  {
    seq(|results|, i requires 0 <= i < |results| => ShareLine(results[i]))
  }

  const ShareFooter: string := "Generated by TimeDeck"

  function ShareHeader(inputTime: string, inputTimezone: string): string {
    "Time Conversion: " + inputTime + " " + TimezoneLabel(inputTimezone)
  }

  /** formatConversionForSharing. */
  function FormatConversionForSharing(inputTime: string, inputTimezone: string, results: seq<ConversionResult>): string {
    ShareHeader(inputTime, inputTimezone) + "\n\n" + Join(ShareLines(results), "\n") + "\n\n" + ShareFooter
  }

  /** The shared text, read line by line when no field contains a line break: the header, a blank
    * line, one line per result in order, a blank line and the footer. */
  lemma ShareTextLines(inputTime: string, inputTimezone: string, results: seq<ConversionResult>)
    requires |results| >= 1
    requires '\n' !in ShareHeader(inputTime, inputTimezone)
    requires forall i :: 0 <= i < |results| ==> '\n' !in ShareLine(results[i])
    ensures Split(FormatConversionForSharing(inputTime, inputTimezone, results), '\n')
            == [ShareHeader(inputTime, inputTimezone), ""] + ShareLines(results) + ["", ShareFooter]
  {
    var header, lines := ShareHeader(inputTime, inputTimezone), ShareLines(results);
    var parts := [header, ""] + lines + ["", ShareFooter];
    SharePartsUnbroken(header, lines);
    var text := FormatConversionForSharing(inputTime, inputTimezone, results);
    assert text == header + "\n\n" + Join(lines, "\n") + "\n\n" + ShareFooter;
    JoinShape(header, lines);
    assert ['\n'] == "\n";
    assert text == Join(parts, ['\n']);
    SplitJoin(parts, '\n');
  }

  /** No line of the shared text contains a line break when the header and result lines do not. */
  lemma SharePartsUnbroken(header: string, lines: seq<string>)
    requires '\n' !in header
    requires forall i :: 0 <= i < |lines| ==> '\n' !in lines[i]
    ensures forall k :: 0 <= k < |[header, ""] + lines + ["", ShareFooter]| ==>
              '\n' !in ([header, ""] + lines + ["", ShareFooter])[k]
  {
    var parts := [header, ""] + lines + ["", ShareFooter];
    assert '\n' !in ShareFooter;
    forall k | 0 <= k < |parts|
      ensures '\n' !in parts[k]
    {
      if 2 <= k < 2 + |lines| {
        assert parts[k] == lines[k - 2];
      } else if k >= 2 + |lines| {
        assert parts[k] == ["", ShareFooter][k - 2 - |lines|];
      }
    }
  }

  lemma {:induction false} JoinShape(header: string, lines: seq<string>)
    requires |lines| >= 1
    ensures Join([header, ""] + lines + ["", ShareFooter], "\n") == header + "\n\n" + Join(lines, "\n") + "\n\n" + ShareFooter
  {
    var tail := lines + ["", ShareFooter];
    assert [header, ""] + lines + ["", ShareFooter] == [header] + ([""] + tail);
    JoinAppend(lines, ["", ShareFooter], "\n");
    assert Join(["", ShareFooter], "\n") == "\n" + ShareFooter;
  }

  /** Joining two non-empty lists puts one separator between them. */
  lemma {:induction false} JoinAppend(a: seq<string>, b: seq<string>, sep: string)
    requires |a| >= 1 && |b| >= 1
    ensures Join(a + b, sep) == Join(a, sep) + sep + Join(b, sep)
  {
    if |a| == 1 {
      assert (a + b)[1..] == b;
    } else {
      assert (a + b)[1..] == a[1..] + b;
      JoinAppend(a[1..], b, sep);
    }
  }
}
