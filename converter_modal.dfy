/**
 * src/components/TimeConverterModal.tsx: the Quick Time Converter. The per-city projection is
 * a pure function over an oracle for the browser's zone rendering; the component state (the
 * typed phrase, the chosen zone, the results and the error) is a class whose methods are the
 * input handlers and the parse/convert effect.
 */
module ConverterModal {
  import opened Wrappers
  import opened Strings
  import opened Types
  import opened Seqs
  import TimeConverter

  /** An entry of the zone drop-down. */
  datatype ZoneOption = ZoneOption(value: string, labelText: string)

  const TimezoneOptions: seq<ZoneOption> := [
    ZoneOption("America/New_York", "Eastern Time (EST/EDT)"),
    ZoneOption("America/Chicago", "Central Time (CST/CDT)"),
    ZoneOption("America/Denver", "Mountain Time (MST/MDT)"),
    ZoneOption("America/Los_Angeles", "Pacific Time (PST/PDT)"),
    ZoneOption("Europe/London", "London (GMT/BST)"),
    ZoneOption("Europe/Paris", "Paris (CET/CEST)"),
    ZoneOption("Europe/Berlin", "Berlin (CET/CEST)"),
    ZoneOption("Asia/Tokyo", "Tokyo (JST)"),
    ZoneOption("Asia/Shanghai", "Shanghai (CST)"),
    ZoneOption("Asia/Kolkata", "India (IST)"),
    ZoneOption("Australia/Sydney", "Sydney (AEST/AEDT)"),
    ZoneOption("UTC", "UTC (Coordinated Universal Time)")
  ]

  /** The zone used when detection fails or the drop-down is cleared. */
  const DefaultZone: string := "America/New_York"

  const InvalidTimeMessage: string := "Invalid time format. Try \"3 PM\", \"15:30\", or \"noon\""

  /** `TIMEZONE_OPTIONS.some(option => option.value === zone)`. */
  predicate IsOffered(zone: string) {
    exists i :: 0 <= i < |TimezoneOptions| && TimezoneOptions[i].value == zone
  }

  /** getUserTimezone. `detected` is the zone `resolvedOptions()` reports, None when reading it
    * throws: a detected zone is kept only when the drop-down offers it. */
  function GetUserTimezone(detected: Option<string>): (r: string)
    ensures IsOffered(r)
    ensures detected.Some? && IsOffered(detected.value) ==> r == detected.value
    ensures !(detected.Some? && IsOffered(detected.value)) ==> r == DefaultZone
  {
    assert TimezoneOptions[0].value == DefaultZone;
    if detected.Some? && IsOffered(detected.value) then detected.value else DefaultZone
  }

  /** The browser calls convertToAllCities makes, as an oracle. `accepts(tz)` is false exactly
    * when `toLocaleString` and its relatives throw a RangeError for the zone. */
  datatype Projection = Projection(
    accepts: string -> bool,
    /** `new Date(y, m, d, hours, minutes, 0, 0)` for today's date `today`. */
    localBase: (int, int, int) -> int,
    /** `new Date(base.toLocaleString("en-US", { timeZone }))`: the zone's wall clock read back
      * as a local instant. */
    wallClock: (int, string) -> int,
    /** `toLocaleTimeString` with `hour: "numeric", minute: "2-digit", hour12: true`. */
    timeText: (int, string) -> string,
    /** `toLocaleDateString` with `month: "short", day: "numeric"`. */
    dateText: (int, string) -> string,
    /** `toLocaleTimeString` with `hour: "2-digit", hour12: false`. */
    hourText: (int, string) -> string,
    /** The local midnight of an instant, `new Date(getFullYear(), getMonth(), getDate())`. */
    startOfDay: int -> int)

  /** One city's row of the converter. */
  datatype ConversionResult = ConversionResult(
    city: City, convertedTime: int, timeString: string, dateString: string,
    dayDifference: int, hourDifference: int, dayNightIcon: string)

  /** getHourInTimezone: `parseInt` of the text before the first ':'; None is NaN. */
  function HourInTimezone(proj: Projection, base: int, timezone: string): Option<int> {
    ParseInt(Split(proj.hourText(base, timezone), ':')[0])
  }

  /** getDayNightIcon applied to a `parseInt` result: NaN fails every comparison and gets the
    * night icon. */
  function IconOfHour(hour: Option<int>): (icon: string)
    ensures hour.Some? ==> icon == TimeConverter.GetDayNightIcon(hour.value)
    ensures hour.None? ==> icon == NightIcon
  {
    match hour
    case Some(h) => TimeConverter.GetDayNightIcon(h)
    case None => NightIcon
  }

  /** The `cities.map` callback for one city; None when a zone is rejected and the call throws. */
  function ConvertCity(proj: Projection, base: int, sourceTimezone: string, city: City): (r: Option<ConversionResult>)
    ensures r.Some? <==> proj.accepts(sourceTimezone) && proj.accepts(city.timezone)
    ensures r.Some? ==> r.value.city == city
    ensures r.Some? ==>
      var sourceTime := proj.wallClock(base, sourceTimezone);
      var cityTime := proj.wallClock(base, city.timezone);
      && r.value.convertedTime == cityTime
      && r.value.hourDifference == TimeConverter.CalculateHourDifference(sourceTime, cityTime)
      && r.value.dayDifference == TimeConverter.CalculateDayDifference(proj.startOfDay, sourceTime, cityTime)
      && r.value.dayNightIcon == IconOfHour(HourInTimezone(proj, base, city.timezone))
      && r.value.timeString == proj.timeText(base, city.timezone)
      && r.value.dateString == proj.dateText(base, city.timezone)
  {
    if !proj.accepts(sourceTimezone) || !proj.accepts(city.timezone) then None
    else
      var sourceTime := proj.wallClock(base, sourceTimezone);
      var cityTime := proj.wallClock(base, city.timezone);
      Some(ConversionResult(
        city, cityTime,
        proj.timeText(base, city.timezone),
        proj.dateText(base, city.timezone),
        TimeConverter.CalculateDayDifference(proj.startOfDay, sourceTime, cityTime),
        TimeConverter.CalculateHourDifference(sourceTime, cityTime),
        IconOfHour(HourInTimezone(proj, base, city.timezone))))
  }

  /** convertToAllCities: one result per city, in the cities' order, or None when some call
    * throws (which needs at least one city). */
  function ConvertToAllCities(proj: Projection, today: int, hours: int, minutes: int, sourceTimezone: string, cities: seq<City>)
    : (r: Option<seq<ConversionResult>>)
    ensures r.Some? <==> forall i :: 0 <= i < |cities| ==> ConvertCity(proj, proj.localBase(today, hours, minutes), sourceTimezone, cities[i]).Some?
    ensures r.Some? ==> |r.value| == |cities|
    ensures r.Some? ==> forall i :: 0 <= i < |cities| ==>
              Some(r.value[i]) == ConvertCity(proj, proj.localBase(today, hours, minutes), sourceTimezone, cities[i])
  {
    var base := proj.localBase(today, hours, minutes);
    MapOrFail((city: City) => ConvertCity(proj, base, sourceTimezone, city), cities)
  }

  /** The conversion succeeds exactly when there are no cities or every zone involved is
    * accepted, and then each result's city is the city at the same position. */
  lemma ConversionShape(proj: Projection, today: int, hours: int, minutes: int, sourceTimezone: string, cities: seq<City>)
    ensures var r := ConvertToAllCities(proj, today, hours, minutes, sourceTimezone, cities);
            r.Some? <==> cities == [] || (proj.accepts(sourceTimezone) && forall i :: 0 <= i < |cities| ==> proj.accepts(cities[i].timezone))
    ensures var r := ConvertToAllCities(proj, today, hours, minutes, sourceTimezone, cities);
            r.Some? ==> forall i :: 0 <= i < |cities| ==> r.value[i].city == cities[i]
  {
    var base := proj.localBase(today, hours, minutes);
    if cities != [] && proj.accepts(sourceTimezone) && forall i :: 0 <= i < |cities| ==> proj.accepts(cities[i].timezone) {
      assert forall i :: 0 <= i < |cities| ==> ConvertCity(proj, base, sourceTimezone, cities[i]).Some?;
    } else if cities != [] && !proj.accepts(sourceTimezone) {
      assert ConvertCity(proj, base, sourceTimezone, cities[0]).None?;
    } else if cities != [] {
      var k :| 0 <= k < |cities| && !proj.accepts(cities[k].timezone);
      assert ConvertCity(proj, base, sourceTimezone, cities[k]).None?;
    }
  }

  /** A city in the source zone is 0 hours and 0 days away (so its relative phrase is
    * "Same time", by SameTimeExactly). */
  lemma SameZoneSameTime(proj: Projection, base: int, city: City)
    requires proj.accepts(city.timezone)
    ensures ConvertCity(proj, base, city.timezone, city).Some?
    ensures ConvertCity(proj, base, city.timezone, city).value.hourDifference == 0
    ensures ConvertCity(proj, base, city.timezone, city).value.dayDifference == 0
  {
    var t := proj.wallClock(base, city.timezone);
    assert TimeConverter.CalculateHourDifference(t, t) == 0 by {
      TimeConverter.HourDifferenceOfWholeHours(t, 0);
    }
    assert TimeConverter.CalculateDayDifference(proj.startOfDay, t, t) == 0 by {
      TimeConverter.DayDifferenceOfSameDay(proj.startOfDay, t, t);
    }
    var r := ConvertCity(proj, base, city.timezone, city);
    assert r == Some(ConversionResult(
        city, t, proj.timeText(base, city.timezone), proj.dateText(base, city.timezone), 0, 0,
        IconOfHour(HourInTimezone(proj, base, city.timezone))));
  }

  /** The record handleCopy builds for formatConversionForSharing from one result. */
  function SharedResult(r: ConversionResult): (s: TimeConverter.ConversionResult)
    ensures s.cityId == r.city.id && s.cityName == r.city.name && s.country == r.city.country
    ensures s.timezone == r.city.timezone && s.convertedTime == r.convertedTime
    ensures s.timeString == r.timeString && s.dateString == r.dateString
    ensures s.dayDifference == r.dayDifference && s.hourDifference == r.hourDifference
    ensures s.dayNightIcon == r.dayNightIcon
    ensures s.relativeDifference == TimeConverter.RelativeTimeDifference(r.hourDifference, r.dayDifference)
  {
    TimeConverter.ConversionResult(
      r.city.id, r.city.name, r.city.country, r.city.timezone, r.convertedTime,
      r.timeString, r.dateString, r.dayDifference, r.hourDifference, r.dayNightIcon,
      TimeConverter.RelativeTimeDifference(r.hourDifference, r.dayDifference))
  }

  function SharedResults(results: seq<ConversionResult>): (s: seq<TimeConverter.ConversionResult>)
    ensures |s| == |results|
    ensures forall i :: 0 <= i < |results| ==> s[i] == SharedResult(results[i])
  {
    seq(|results|, i requires 0 <= i < |results| => SharedResult(results[i]))
  }

  /** The converter's state. */
  class Converter {
    var timeInput: string
    var selectedTimezone: string
    var conversionResults: seq<ConversionResult>
    var error: Option<string>

    /** The only error the converter shows comes with an empty result list. */
    predicate Valid()
      reads this
    {
      error.Some? ==> error.value == InvalidTimeMessage && conversionResults == []
    }

    /** The initial state: empty phrase, detected zone (or the default), no results, no error. */
    constructor (detected: Option<string>)
      ensures Valid()
      ensures timeInput == "" && selectedTimezone == GetUserTimezone(detected)
      ensures conversionResults == [] && error == None
    {
      timeInput := "";
      selectedTimezone := GetUserTimezone(detected);
      conversionResults := [];
      error := None;
    }

    /** The text input's onChange. */
    method SetTimeInput(value: string)
      requires Valid()
      modifies this
      ensures Valid()
      ensures timeInput == value
      ensures selectedTimezone == old(selectedTimezone) && conversionResults == old(conversionResults) && error == old(error)
    {
      timeInput := value;
    }

    /** The drop-down's onChange: a cleared (null or empty) value selects the default zone. */
    method SelectTimezone(value: Option<string>)
      requires Valid()
      modifies this
      ensures Valid()
      ensures value.Some? && value.value != "" ==> selectedTimezone == value.value
      ensures value.None? || value.value == "" ==> selectedTimezone == DefaultZone
      ensures selectedTimezone != ""
      ensures timeInput == old(timeInput) && conversionResults == old(conversionResults) && error == old(error)
    {
      selectedTimezone := if value.Some? && value.value != "" then value.value else DefaultZone;
    }

    /** The parse/convert effect, run after the phrase, the zone or the cities change. A phrase
      * that does not parse leaves the results and the error as they were; only a conversion
      * that throws shows the error. */
    method RunEffect(proj: Projection, today: int, cities: seq<City>)
      requires Valid()
      modifies this
      ensures Valid()
      ensures timeInput == old(timeInput) && selectedTimezone == old(selectedTimezone)
      ensures timeInput == "" || selectedTimezone == "" ==> conversionResults == [] && error == None
      ensures timeInput != "" && selectedTimezone != "" ==>
        match TimeConverter.ParseTimeInput(timeInput)
        case None => conversionResults == old(conversionResults) && error == old(error)
        case Some(p) =>
          match ConvertToAllCities(proj, today, p.hours, p.minutes, selectedTimezone, cities)
          case Some(rs) => conversionResults == rs && error == None
          case None => conversionResults == [] && error == Some(InvalidTimeMessage)
    {
      if timeInput != "" && selectedTimezone != "" {
        var parsed := TimeConverter.ParseTimeInput(timeInput);
        if parsed.Some? {
          var results := ConvertToAllCities(proj, today, parsed.value.hours, parsed.value.minutes, selectedTimezone, cities);
          if results.Some? {
            conversionResults := results.value;
            error := None;
          } else {
            error := Some(InvalidTimeMessage);
            conversionResults := [];
          }
        }
      } else {
        conversionResults := [];
        error := None;
      }
    }

    /** handleCopy: nothing when there are no results; otherwise the text handed to the
      * clipboard (the clipboard write itself is outside the model). */
    method HandleCopy() returns (text: Option<string>)
      ensures text.None? <==> conversionResults == []
      ensures text.Some? ==>
        text.value == TimeConverter.FormatConversionForSharing(timeInput, selectedTimezone, SharedResults(conversionResults))
    {
      if |conversionResults| == 0 {
        return None;
      }
      var results := SharedResults(conversionResults);
      text := Some(TimeConverter.FormatConversionForSharing(timeInput, selectedTimezone, results));
    }
  }
}
