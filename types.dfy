/** The records shared by the dashboard's components (src/types/index.ts and src/types.ts). */
module Types {
  import opened Wrappers

  datatype Coordinates = Coordinates(lat: real, lng: real)

  /** A city of the catalog; its identity is `id`. The coordinates are optional, as in src/types/index.ts. */
  datatype City = City(id: string, name: string, country: string, timezone: string, coordinates: Option<Coordinates>)

  /** The `period` of a time-of-day record. */
  datatype Period = Sunrise | Day | Sunset | Night

  /** A day-phase record: the icon and label that go with its period. */
  datatype TimeOfDay = TimeOfDay(icon: string, labelText: string, period: Period)

  /** One clock reading for one timezone at one instant. */
  datatype TimeData = TimeData(time: string, date: string, timezone: string, timestamp: int, timeOfDay: TimeOfDay)

  /** The icons the day-phase tables use. */
  const SunriseIcon: string := "\U{1F305}"
  const DayIcon: string := "\U{2600}\U{FE0F}"
  const SunsetIcon: string := "\U{1F307}"
  const NightIcon: string := "\U{1F319}"

  /** No two cities share an id. */
  predicate UniqueIds(cities: seq<City>) {
    forall i, j :: 0 <= i < j < |cities| ==> cities[i].id != cities[j].id
  }

  /** Some city has this id (`cities.some(c => c.id === id)`). */
  predicate HasId(cities: seq<City>, id: string) {
    exists i :: 0 <= i < |cities| && cities[i].id == id
  }
}
