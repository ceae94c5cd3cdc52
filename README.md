# TimeDeck core in Dafny

TimeDeck is a browser dashboard of world clocks. The user keeps an ordered list of cities. Each
city shows its local time, date, zone abbreviation and phase of the day. A converter projects one
typed time ("3 PM", "15:30", "noon") into every tracked city.

This project models the logic behind that in Dafny, one module per source file:

- `TimeConverter` (src/utils/timeConverter.ts) covers:
  - the time-phrase parser, with its regular expression written as a deterministic matcher;
  - the day/night icon table;
  - the rounded hour and day differences;
  - the "N hrs ahead, +1 day" phrase;
  - the text "Copy All" shares.
- `Clock` (src/utils/time.ts) holds the clock-reading helpers and their try/catch fallbacks.
  They run over an oracle for `Intl.DateTimeFormat`.
- `ConverterModal` (src/components/TimeConverterModal.tsx) holds the per-city projection, the
  zone drop-down default and the component state. The state is a class whose methods are the
  input handlers and the parse/convert effect.
- `CurrentTime` (src/hooks/useCurrentTime.ts) holds the refresh gate. A tick publishes a new
  reading, or a new zone map, only when something displayed has changed.
- `CityStorage` (src/utils/cityStorage.ts) is the saved list. `localStorage` is a class over a
  key/value map, and JSON text goes through a codec oracle.
- `CityManager` (src/hooks/useCityManager.ts) is the registry of tracked cities: initialisation,
  add and remove, with their storage outcomes.
- `CityGrid` (src/components/CityGrid.tsx) covers the drag-to-reorder splice, the hover test and
  the zones handed to the clock hook.
- `Cities` (src/data/cities.ts) is the 62-city catalog, with id lookup and search.
- `CitySelector` (src/components/CitySelector.tsx) covers the picker's available, option and
  filtered lists and the selection handler.
- `Wrappers`, `Strings`, `Seqs` and `Types` are shared helpers and datatypes:
  - `Option`;
  - `trim`, ASCII `toLowerCase`, `includes`, `parseInt`, `split` and `join`;
  - `filter` and `find`;
  - the `City`, `TimeData` and `TimeOfDay` records.

Instants are integers: milliseconds since the epoch. Everything the browser computes from the IANA
zone database is an oracle passed in as a parameter: formatted text, local hours, zone
abbreviations, wall-clock read-backs and local midnights. Each oracle has an `accepts` predicate
that is false exactly when the call would throw a RangeError for that zone.

Two behaviours of the code shape the model:

- The registry hook has no reorder operation. src/hooks/useCityManager.ts:103-110 returns
  `cities`, `addCity`, `removeCity`, `isLoading`, `hasStorageSupport` and `error`, yet
  src/components/App.tsx:107 destructures a `reorderCities` from it, and App.tsx:240 passes
  that undefined value to the grid as `onReorderCities`. The model has no registry reorder. The
  grid's hover says whether a callback exists, and it throws when none does (see Findings).
- A parse failure in the converter is not reported as an error. `parseTimeInput` returns `null`,
  and the effect then leaves the previous results and error in place. The error message appears
  only when the conversion itself throws.

## Model

| member | source | states |
|---|---|---|
| TimeConverter.MatchTime | src/utils/timeConverter.ts:41-44 | a successful match has the pattern's shape and spells out exactly the matched phrase |
| TimeConverter.MatchTimeComplete | src/utils/timeConverter.ts:41-42 | every phrase of the pattern's shape is matched, with exactly its captures (no backtracking alternative exists) |
| TimeConverter.To24Hour | src/utils/timeConverter.ts:54-66 | the result is an hour 0..23; with am/pm it keeps the hour modulo 12 and is afternoon exactly for pm; without a marker it adds 12 exactly for 1..7 |
| TimeConverter.ConvertMatch | src/utils/timeConverter.ts:46-68 | an accepted match gives hours 0..23, minutes 0..59 and an empty zone |
| TimeConverter.ParseTimeInput | src/utils/timeConverter.ts:29-69 | every parsed time is a valid 24-hour time of day with an empty zone |
| TimeConverter.ParseSpecialPhrases | src/utils/timeConverter.ts:30-38 | after trimming and lowercasing, "noon"/"12 pm" give 12:00 and "midnight"/"12 am" give 0:00 |
| TimeConverter.SpecialPhrasesAgreeWithPattern | src/utils/timeConverter.ts:33-66 | the "12 pm"/"12 am" shortcuts give what the general pattern rule gives for those phrases |
| TimeConverter.ParseOnPattern | src/utils/timeConverter.ts:41-68 | a phrase of the pattern's shape is rejected exactly when hours > 23, minutes > 59, or a marker comes with hour 0 or above 12; otherwise it converts to the 24-hour value |
| TimeConverter.ParseOffPattern | src/utils/timeConverter.ts:41-44 | a phrase that is neither a special phrase nor of the pattern's shape is rejected |
| TimeConverter.GetDayNightIcon | src/utils/timeConverter.ts:106-111 | sunrise exactly for [5,8), day for [8,17), sunset for [17,20), night for every other hour |
| TimeConverter.CalculateHourDifference | src/utils/timeConverter.ts:116-118 | the result is the nearest whole number of hours, halves rounding up |
| TimeConverter.HourDifferenceOfWholeHours | src/utils/timeConverter.ts:116-118 | instants k whole hours apart give exactly k; equal instants give 0 |
| TimeConverter.CalculateDayDifference | src/utils/timeConverter.ts:123-127 | the result is the distance between the two local midnights, to the nearest whole day |
| TimeConverter.DayDifferenceOfSameDay | src/utils/timeConverter.ts:123-127 | two instants of the same local day are 0 days apart |
| TimeConverter.FormatRelativeTimeDifference | src/utils/timeConverter.ts:132-156 | the step-by-step phrase equals the declarative one: "Same time", or the non-zero hour and day clauses joined by ", " |
| TimeConverter.SameTimeExactly | src/utils/timeConverter.ts:132-156 | the phrase is "Same time" exactly when both differences are 0; otherwise it opens with the hour clause, or is the day clause alone |
| TimeConverter.LastSegment | src/utils/timeConverter.ts:166 | `split('/').pop()` is the suffix after the last '/', contains no '/', and is all of the text when there is no '/' |
| TimeConverter.TimezoneLabel | src/utils/timeConverter.ts:166 | the label is the last segment with its first '_' as a space; an empty segment falls back to the whole id |
| TimeConverter.TimezoneLabelOf | src/utils/timeConverter.ts:166 | for "Region/First_Rest" the label is "First Rest" |
| TimeConverter.TimezoneLabelPlain | src/utils/timeConverter.ts:166 | a non-empty last segment without '_' is the label unchanged, for "Region/Seg" and for an id without '/' |
| TimeConverter.ReplaceFirst | src/utils/timeConverter.ts:166 | `replace('_', ' ')` keeps the length and leaves text without '_' unchanged |
| TimeConverter.ReplaceFirstSpec | src/utils/timeConverter.ts:166 | up to the first `from` the text is unchanged and that `from` becomes `to`; every later character stays |
| TimeConverter.ChicagoLabel | src/utils/timeConverter.ts:166 | "America/Chicago" is labelled "Chicago" |
| TimeConverter.NewYorkLabel | src/utils/timeConverter.ts:166 | "America/New_York" is labelled "New York" |
| TimeConverter.UtcLabel | src/utils/timeConverter.ts:166 | "UTC" is labelled "UTC" |
| TimeConverter.ShareTextLines | src/utils/timeConverter.ts:161-179 | the shared text (`FormatConversionForSharing`, built from `ShareHeader` and `ShareLines`) splits into the header, a blank line, one line per result in order, a blank line and "Generated by TimeDeck" |
| Clock.FormatTime | src/utils/time.ts:11-29 | the zone's rendering of the instant, or the UTC rendering of the same instant when the zone is rejected |
| Clock.FormatDate | src/utils/time.ts:37-55 | as FormatTime, for the date rendering |
| Clock.GetTimezoneAbbreviation | src/utils/time.ts:62-79 | a non-empty zone-name part when there is one, otherwise the id itself; a rejected zone gives the id |
| Clock.IsValidTimezone | src/utils/time.ts:103-110 | true exactly when a formatter for the zone can be built |
| Clock.PhaseOfHour | src/utils/time.ts:132-142 | icon, label and period agree; each period holds exactly on its hour band; NaN is night; the icon is getDayNightIcon's |
| Clock.GetTimeOfDay | src/utils/time.ts:117-148 | a rejected zone gives the Day record; otherwise the phase of the parsed local hour, always consistent |
| Clock.PhaseMatchesDayNightIcon | src/utils/time.ts:126-142 | when the local hour is written as a plain number, the phase icon equals getDayNightIcon of that hour |
| Clock.RejectedZoneFallbacks | src/utils/time.ts:11-148 | for a rejected zone, time and date are the UTC renderings, the abbreviation is the id and the phase is Day |
| Clock.GetCurrentTimeForTimezone | src/utils/time.ts:86-96 | the reading combines the four helpers for the zone, with the instant as timestamp and a consistent phase |
| ConverterModal.GetUserTimezone | src/components/TimeConverterModal.tsx:67-79 | the detected zone when the drop-down offers it, otherwise America/New_York; the result is always offered |
| ConverterModal.IconOfHour | src/components/TimeConverterModal.tsx:148-150 | getDayNightIcon of the hour `HourInTimezone` parses (getHourInTimezone); NaN gets the night icon |
| ConverterModal.ConvertCity | src/components/TimeConverterModal.tsx:121-161 | defined exactly when both zones are accepted; the row holds the city's wall-clock time, its time and date text, the rounded differences from the source zone and the icon of its local hour |
| ConverterModal.ConvertToAllCities | src/components/TimeConverterModal.tsx:115-162 | one row per city in order, each the city's conversion; fails exactly when some city's conversion throws |
| ConverterModal.ConversionShape | src/components/TimeConverterModal.tsx:115-162 | the conversion succeeds exactly when there are no cities or every zone involved is accepted, and row i is for city i |
| ConverterModal.SameZoneSameTime | src/components/TimeConverterModal.tsx:134-146 | a city in the source zone is 0 hours and 0 days away |
| ConverterModal.SharedResult | src/components/TimeConverterModal.tsx:218-230 | the shared record copies the row's fields and adds the relative-difference phrase |
| ConverterModal.Converter.constructor | src/components/TimeConverterModal.tsx:81-88 | empty phrase, the detected or default zone, no results, no error |
| ConverterModal.Converter.SetTimeInput | src/components/TimeConverterModal.tsx:278 | only the phrase changes |
| ConverterModal.Converter.SelectTimezone | src/components/TimeConverterModal.tsx:292-293 | a cleared selection becomes America/New_York, so the zone is never empty; nothing else changes |
| ConverterModal.Converter.RunEffect | src/components/TimeConverterModal.tsx:90-112 | empty phrase or zone: no results and no error; unparsable phrase: state kept; conversion: its rows and no error; a throw: the error message and no rows; the error always comes with no rows |
| ConverterModal.Converter.HandleCopy | src/components/TimeConverterModal.tsx:215-236 | nothing to copy exactly when there are no results; otherwise the shared text of all rows |
| CurrentTime.UpdateTime | src/hooks/useCurrentTime.ts:26-36 | the kept reading always displays the fresh text; the previous reading is kept exactly when time, date and abbreviation are unchanged |
| CurrentTime.UpdateTimeIgnoresTimestamp | src/hooks/useCurrentTime.ts:26-36 | a tick that only moves the timestamp or the phase keeps the previous reading |
| CurrentTime.UpdateTimeIdempotent | src/hooks/useCurrentTime.ts:26-36 | applying the same reading again changes nothing |
| CurrentTime.FreshMap | src/hooks/useCurrentTime.ts:53-57 | the keys of the built map are exactly the listed zones |
| CurrentTime.FreshMapLast | src/hooks/useCurrentTime.ts:54-56 | a zone maps to the reading of its last entry in the list |
| CurrentTime.FreshMapValues | src/hooks/useCurrentTime.ts:54-56 | every value is the reading of some entry for its zone |
| CurrentTime.BuildMap | src/hooks/useCurrentTime.ts:52-58 | the loop builds the map FreshMap describes |
| CurrentTime.UpdateAllTimes | src/hooks/useCurrentTime.ts:70-95 | `hasChanges` holds exactly when some entry is missing from the previous map or displays something else; then the fresh map is returned, otherwise the previous map itself |
| CurrentTime.NoChangeOnSameDisplay | src/hooks/useCurrentTime.ts:75-93 | with no repeated zone, readings displaying what the previous map displays publish nothing |
| CurrentTime.RepeatedZoneComparesEachEntry | src/hooks/useCurrentTime.ts:75-90 | a zone listed twice with differently displayed readings always counts as a change |
| CurrentTime.MultipleCurrentTimes.constructor | src/hooks/useCurrentTime.ts:52-58 | the initial map is the fresh map of the listed zones; nothing is published yet |
| CurrentTime.MultipleCurrentTimes.Rebuild | src/hooks/useCurrentTime.ts:61-67 | a zone-list change always publishes the fresh map |
| CurrentTime.MultipleCurrentTimes.Tick | src/hooks/useCurrentTime.ts:70-98 | a tick publishes the fresh map exactly when something displayed changed; otherwise the map and the publish count stay |
| CityStorage.Storage.SetItem | src/utils/cityStorage.ts:45 | the write succeeds exactly when storage is enabled and does not reject it; a failed write leaves the items as they were |
| CityStorage.Storage.RemoveItem | src/utils/cityStorage.ts:62 | removal succeeds exactly when storage is enabled; an absent key is not an error |
| CityStorage.CityJson | src/utils/cityStorage.ts:44 | the written object of a city always passes the load filter |
| CityStorage.EntryCityOfCityJson | src/utils/cityStorage.ts:22-28 | a written city reads back as itself |
| CityStorage.Decode | src/utils/cityStorage.ts:10-34 | missing or empty text, unparsable text and non-array JSON give []; otherwise the entries passing the filter, in stored order |
| CityStorage.DecodeSerialize | src/utils/cityStorage.ts:8-55 | loading what was saved (`Serialize`, the codec's text of `CitiesJson`) gives the saved list back |
| CityStorage.LoadCities | src/utils/cityStorage.ts:8-39 | blocked storage or no saved key gives [] |
| CityStorage.SaveCities | src/utils/cityStorage.ts:42-55 | true exactly when the write goes through, and then a load returns the saved list; on failure the store is unchanged |
| CityStorage.IsStorageAvailable | src/utils/cityStorage.ts:58-67 | true exactly when the test write succeeds, and then the test key is gone again |
| CityStorage.ClearCities | src/utils/cityStorage.ts:70-78 | true exactly when storage is enabled, and then every load gives [] |
| CityManager.WithoutId | src/hooks/useCityManager.ts:84 | no city with the id remains; every other city stays as many times as before, in order; an absent id changes nothing; unique ids stay unique |
| CityManager.SubsequenceKeepsUniqueIds | src/hooks/useCityManager.ts:84 | deleting entries from a list with unique ids keeps them unique |
| CityManager.Registry.constructor | src/hooks/useCityManager.ts:15-18 | no cities, loading, no storage support, no error |
| CityManager.Registry.Initialize | src/hooks/useCityManager.ts:21-46 | supported storage loads the saved list; otherwise the list stays and the "not available" message is set; loading ends either way; the store stays enabled or disabled as it was |
| CityManager.Registry.AddCity | src/hooks/useCityManager.ts:49-77 | a duplicate id is refused with its message (`DuplicateMessage`) and the list unchanged; a new city is appended and saved when supported; a failed save warns but the city stays; unique ids stay unique; a successful save loads back as the list; the store stays enabled or disabled as it was |
| CityManager.Registry.RemoveCity | src/hooks/useCityManager.ts:80-101 | every city with the id goes, the rest keep their order, always true; saved when supported, with a warning on failure; a successful save loads back as the list; the store stays enabled or disabled as it was |
| CityGrid.RemoveAt | src/components/CityGrid.tsx:150 | `splice(i, 1)` shifts the later elements down by one |
| CityGrid.InsertAt | src/components/CityGrid.tsx:151 | `splice(i, 0, x)` puts x at i and shifts the later elements up by one |
| CityGrid.MovedIsPermutation | src/components/CityGrid.tsx:148-151 | a move keeps length and multiset, puts the dragged city at the hover index, shifts only the cities between, and removing the dragged city from old and new lists gives the same list |
| CityGrid.MoveCard | src/components/CityGrid.tsx:146-155 | the spliced copy is the moved list; the input list is a value and stays as it was |
| CityGrid.ShouldMove | src/components/CityGrid.tsx:52-82 | never onto itself; downward moves need the pointer past the middle, upward moves before it |
| CityGrid.HoverOutcome | src/components/CityGrid.tsx:45-92 | no move unless the card is mounted and passes the hover test; then a TypeError exactly when no callback was given, else the moved list |
| CityGrid.WiredHoverMovesCard | src/components/CityGrid.tsx:146-155 | with a callback, a qualifying hover hands over a permutation of the list with the dragged city at the hovered position |
| CityGrid.ShippedDragThrows | src/components/App.tsx:240 | without a callback, dragging the first of two cards past the middle of the second throws, where a wired grid swaps them |
| CityGrid.DragItem.Hover | src/components/CityGrid.tsx:45-92 | the outcome is HoverOutcome; the item records the new index only when the callback took the moved list, otherwise the index stays |
| CityGrid.GridTimezones | src/components/CityGrid.tsx:139-142 | the cities' zones, in grid order |
| CityGrid.MovedTimezones | src/components/CityGrid.tsx:139-151 | moving a card moves its zone the same way, so the watched zones are the same multiset |
| Cities.CatalogIdsDistinct | src/data/cities.ts:4-456 | no two catalog cities share an id |
| Cities.GetCityById | src/data/cities.ts:459-461 | a found city is in the catalog with that id; undefined exactly when no catalog city has it |
| Cities.GetCityByIdOfCatalog | src/data/cities.ts:459-461 | looking up any catalog city's id gives that city back |
| Cities.SearchCities | src/data/cities.ts:464-471 | a city is in the result exactly when its lowercased name or country contains the lowercased query; the result keeps catalog order |
| Cities.SearchEmptyQuery | src/data/cities.ts:464-471 | the empty query returns the whole catalog |
| CitySelector.AvailableCities | src/components/CitySelector.tsx:31 | no offered city is already selected, every other loaded city is offered, in order |
| CitySelector.AvailablePartition | src/components/CitySelector.tsx:31 | every loaded city is offered or already selected, and never both |
| CitySelector.SelectData | src/components/CitySelector.tsx:33-37 | one option per available city, in order, valued by id and labelled "name, country" |
| CitySelector.FilteredData | src/components/CitySelector.tsx:40-42 | an option is kept exactly when its lowercased label contains the lowercased search, in order |
| CitySelector.FilteredDataEmptySearch | src/components/CitySelector.tsx:40-42 | an empty search keeps every option |
| CitySelector.SearchMatchShowsOption | src/components/CitySelector.tsx:40-42 | a city the catalog search finds for a query has an option label matching that query |
| CitySelector.NothingFoundMessage | src/components/CitySelector.tsx:82-86 | "All cities have been added…" exactly when every loaded city is selected, the no-match message otherwise |
| CitySelector.Selector.constructor | src/components/CitySelector.tsx:18-20 | empty search, no cities, loading |
| CitySelector.Selector.Load | src/components/CitySelector.tsx:23-28 | the loaded catalog replaces the list and loading ends |
| CitySelector.Selector.SetSearchValue | src/components/CitySelector.tsx:64 | only the search text changes |
| CitySelector.Selector.Shown | src/components/CitySelector.tsx:31-42 | every listed option is a loaded, unselected city whose label matches the search |
| CitySelector.Selector.HandleCitySelection | src/components/CitySelector.tsx:44-52 | a non-empty value naming an available city selects that city and clears the search; anything else changes nothing |

## Left out

- `Intl.DateTimeFormat`, `Date` and `toLocaleString` are oracles. Time-zone rules, daylight saving, calendars and the formatted text itself are not modelled; only how the code combines their results is.
- createTimeInTimezone and convertTimeToTimezone in src/utils/timeConverter.ts are not modelled. No modelled code calls them, and their work is oracle work.
- The converter's own zone helpers are each one oracle field of `ConverterModal.Projection`: createTimeInTimezone, formatTimeInTimezone, formatDateInTimezone and the hour lookup.
- ConverterModal.ConvertToAllCities: the source reads `new Date()` afresh for each city. The model uses one `today` for all of them, so a conversion that straddles midnight is not captured.
- Clock.GetCurrentTimeForTimezone: the extra clock reads of the abbreviation and phase helpers are separate parameters; the clock itself is not modelled.
- Numbers are integers in the model. Floating-point division before `Math.round` is written as exact rounding of the integer quotient, halves up.
- `parseInt` is read as decimal only (`Strings.ParseInt`, used by `ConverterModal.HourInTimezone` and `Clock.GetTimeOfDay`). A radix-less `parseInt` would also read a "0x" prefix as hexadecimal; the hour text the formatter returns is always decimal digits.
- `toLowerCase` maps only ASCII letters. Case mapping of other characters, as in "São Paulo", is not modelled.
- JSON text is an oracle codec; the model does not parse or print JSON.
- CityStorage.Decode: extra object fields of a stored entry are dropped. Malformed coordinates read as absent.
- The branches of the `try/catch` blocks in src/hooks/useCityManager.ts that no modelled call can reach ("Failed to initialize", "Failed to add city", "Failed to remove city") are not modelled.
- The interval timer (src/hooks/useInterval.ts) is not part of this model. Each tick is one call to the refresh gate.
- React re-rendering, state batching and stale closures are not modelled. Each handler is one sequential step on the state.
- The identity of a new `Map` object is modelled only as the `published` counter of `CurrentTime.MultipleCurrentTimes`.
- useCurrentTime's single-zone effect that resets the reading when the zone changes is not modelled separately. Its updater is `CurrentTime.UpdateTime`.
- CityGrid.ShouldMove: the DOM geometry is reduced to two real numbers, the pointer's offset into the hovered card and half its height. The react-dnd hooks and drag styling are not modelled.
- CityGrid.MoveCard requires both indices to lie within the list. The drag library only reports indices of rendered cards.
- CityGrid.DragItem.Hover: what the reorder callback does with the list is outside the model, because no registry reorder exists. The hover only says whether a callback exists; as App.tsx wires the grid it does not, so the first qualifying hover throws (see Findings).
- The clipboard write in handleCopy is left out. ConverterModal.Converter.HandleCopy returns the text it would write.
- The catalog's asynchronous import in the picker is the single call `CitySelector.Selector.Load`.
- The picker's option rendering (`renderOption`) and all layout and theming are not modelled.
- TimeConverter.TimezoneLabel: the label is proved for the shapes "Region/First_Rest" and "Region/Seg" (and a bare "Seg"), plus three concrete ids, not for each zone id of the catalog separately.
- Diagnostic logging (`console.log`, `console.warn`, `console.error` in src/utils/time.ts, src/utils/cityStorage.ts, src/hooks/useCityManager.ts, src/components/TimeConverterModal.tsx and src/components/App.tsx) is not modelled; it changes no state and no result.
- Performance logging (src/utils/performance.ts, src/components/PerformancePanel.tsx) is not part of this model.

## Findings

| source | as written | input that shows it | evidently intended | confidence | as-written member | corrected member |
|---|---|---|---|---|---|---|
| src/components/App.tsx:240 | `reorderCities` is read (App.tsx:107) from a hook that does not return it (useCityManager.ts:103-110), so the grid gets `onReorderCities` undefined and moveCard (CityGrid.tsx:152) throws a TypeError before `item.index` is updated | two cards, drag card 0 over card 1 with the pointer below the middle | the registry supplies a reorder callback, and the hover hands it the moved list and records the new index | high, not executed | CityGrid.ShippedDragThrows | CityGrid.WiredHoverMovesCard |
