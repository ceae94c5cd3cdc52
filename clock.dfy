/**
 * src/utils/time.ts: the clock-reading helpers. Every helper wraps one `Intl.DateTimeFormat`
 * call in a try/catch; the formatter is the oracle `Intl`, and the instant it formats (a
 * `new Date()` in the source) is a parameter in milliseconds since the epoch.
 */
module Clock {
  import opened Wrappers
  import opened Strings
  import opened Types
  import TimeConverter

  /** `Intl.DateTimeFormat("en-US", …)` as seen by these helpers. `accepts(tz)` is false exactly
    * when constructing a formatter with `timeZone: tz` throws a RangeError. */
  datatype Intl = Intl(
    accepts: string -> bool,
    /** `hour: "numeric", minute: "2-digit", hour12: true`, e.g. "2:30 PM". */
    timeText: (int, string) -> string,
    /** `month: "short", day: "numeric", year: "numeric"`, e.g. "Jan 15, 2025". */
    dateText: (int, string) -> string,
    /** The value of the `timeZoneName` part of `formatToParts` with `timeZoneName: "short"`,
      * None when there is no such part. */
    zoneNamePart: (int, string) -> Option<string>,
    /** `hour: "numeric", hour12: false`: the local hour as text. */
    hourText: (int, string) -> string)

  /** The zone formatTime and formatDate fall back to. */
  const FallbackZone: string := "UTC"

  /** formatTime: the zone's rendering, or the UTC rendering of the same instant when the
    * zone is rejected. */
  function FormatTime(intl: Intl, date: int, timezone: string): (r: string)
    ensures intl.accepts(timezone) ==> r == intl.timeText(date, timezone)
    ensures !intl.accepts(timezone) ==> r == intl.timeText(date, FallbackZone)
  {
    if intl.accepts(timezone) then intl.timeText(date, timezone) else intl.timeText(date, FallbackZone)
  }

  /** formatDate: as formatTime, with the date rendering. */
  function FormatDate(intl: Intl, date: int, timezone: string): (r: string)
    ensures intl.accepts(timezone) ==> r == intl.dateText(date, timezone)
    ensures !intl.accepts(timezone) ==> r == intl.dateText(date, FallbackZone)
  {
    if intl.accepts(timezone) then intl.dateText(date, timezone) else intl.dateText(date, FallbackZone)
  }

  /** getTimezoneAbbreviation: the non-empty `timeZoneName` part, otherwise the zone id itself;
    * a rejected zone also gives the id, never "UTC". */
  function GetTimezoneAbbreviation(intl: Intl, now: int, timezone: string): (r: string)
    ensures !intl.accepts(timezone) ==> r == timezone
    ensures intl.accepts(timezone) && intl.zoneNamePart(now, timezone).Some? && intl.zoneNamePart(now, timezone).value != ""
            ==> r == intl.zoneNamePart(now, timezone).value
    ensures r == timezone || (r != "" && intl.zoneNamePart(now, timezone) == Some(r))
  {
    if !intl.accepts(timezone) then timezone
    else match intl.zoneNamePart(now, timezone)
      case Some(part) => if part != "" then part else timezone
      case None => timezone
  }

  /** isValidTimezone: true exactly when a formatter for the zone can be built; it never throws. */
  function IsValidTimezone(intl: Intl, timezone: string): (r: bool)
    ensures r <==> intl.accepts(timezone)
  {
    intl.accepts(timezone)
  }

  /** The icon and label belong to the period. */
  predicate Consistent(t: TimeOfDay) {
    match t.period
    case Sunrise => t.icon == SunriseIcon && t.labelText == "Sunrise"
    case Day => t.icon == DayIcon && t.labelText == "Day"
    case Sunset => t.icon == SunsetIcon && t.labelText == "Sunset"
    case Night => t.icon == NightIcon && t.labelText == "Night"
  }

  /** The record getTimeOfDay returns when the hour lookup throws. */
  const DayRecord: TimeOfDay := TimeOfDay(DayIcon, "Day", Day)

  /** The day-phase table of getTimeOfDay on `parseInt(hour, 10)`; None is NaN, for which every
    * comparison is false, so it lands in the last branch. */
  function PhaseOfHour(hourNum: Option<int>): (t: TimeOfDay)
    ensures Consistent(t)
    ensures t.period == Sunrise <==> hourNum.Some? && 5 <= hourNum.value < 8
    ensures t.period == Day <==> hourNum.Some? && 8 <= hourNum.value < 17
    ensures t.period == Sunset <==> hourNum.Some? && 17 <= hourNum.value < 20
    ensures t.period == Night <==> hourNum.None? || hourNum.value < 5 || hourNum.value >= 20
    ensures hourNum.Some? ==> t.icon == TimeConverter.GetDayNightIcon(hourNum.value)
  {
    match hourNum
    case None => TimeOfDay(NightIcon, "Night", Night)
    case Some(h) =>
      if 5 <= h < 8 then TimeOfDay(SunriseIcon, "Sunrise", Sunrise)
      else if 8 <= h < 17 then TimeOfDay(DayIcon, "Day", Day)
      else if 17 <= h < 20 then TimeOfDay(SunsetIcon, "Sunset", Sunset)
      else TimeOfDay(NightIcon, "Night", Night)
  }

  /** getTimeOfDay: the phase of the zone's local hour, or the Day record when the zone is
    * rejected. */
  function GetTimeOfDay(intl: Intl, now: int, timezone: string): (t: TimeOfDay)
    ensures Consistent(t)
    ensures !intl.accepts(timezone) ==> t == DayRecord
    ensures intl.accepts(timezone) ==> t == PhaseOfHour(ParseInt(intl.hourText(now, timezone)))
  {
    if intl.accepts(timezone) then PhaseOfHour(ParseInt(intl.hourText(now, timezone))) else DayRecord
  }

  /** When the formatter writes the local hour as a plain number, the phase icon is the one
    * getDayNightIcon gives for that hour. */
  lemma PhaseMatchesDayNightIcon(intl: Intl, now: int, timezone: string, hour: nat)
    requires intl.accepts(timezone) && intl.hourText(now, timezone) == NatToString(hour)
    ensures GetTimeOfDay(intl, now, timezone).icon == TimeConverter.GetDayNightIcon(hour)
  {
    ParseIntOfNatToString(hour);
  }

  /** The three fallback policies side by side: for a rejected zone, time and date are the UTC
    * renderings, the abbreviation is the id itself and the phase is Day. */
  lemma RejectedZoneFallbacks(intl: Intl, now: int, timezone: string)
    requires !intl.accepts(timezone) && intl.accepts(FallbackZone)
    ensures FormatTime(intl, now, timezone) == FormatTime(intl, now, FallbackZone)
    ensures FormatDate(intl, now, timezone) == FormatDate(intl, now, FallbackZone)
    ensures GetTimezoneAbbreviation(intl, now, timezone) == timezone
    ensures GetTimeOfDay(intl, now, timezone) == DayRecord
  {
  }

  /** getCurrentTimeForTimezone. The source reads the clock once for the time, date and
    * timestamp, and the abbreviation and phase helpers each read it again: those two instants
    * are `abbreviationNow` and `phaseNow`. */
  function GetCurrentTimeForTimezone(intl: Intl, now: int, abbreviationNow: int, phaseNow: int, timezone: string): (d: TimeData)
    ensures d.timestamp == now
    ensures d.time == FormatTime(intl, now, timezone) && d.date == FormatDate(intl, now, timezone)
    ensures d.timezone == GetTimezoneAbbreviation(intl, abbreviationNow, timezone)
    ensures d.timeOfDay == GetTimeOfDay(intl, phaseNow, timezone) && Consistent(d.timeOfDay)
  {
    TimeData(
      FormatTime(intl, now, timezone),
      FormatDate(intl, now, timezone),
      GetTimezoneAbbreviation(intl, abbreviationNow, timezone),
      now,
      GetTimeOfDay(intl, phaseNow, timezone))
  }
}
