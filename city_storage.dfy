/**
 * src/utils/cityStorage.ts: the saved city list in `localStorage`. The store is a class holding
 * the key/value map the browser keeps; JSON text is handled by an oracle codec over a JSON value
 * datatype, and a load tolerates every bad payload by returning the entries it can use.
 */
module CityStorage {
  import opened Wrappers
  import opened Types
  import opened Seqs

  /** A JSON value as `JSON.parse` returns it. */
  datatype Json =
    | JNull
    | JBool(b: bool)
    | JNumber(n: real)
    | JString(s: string)
    | JArray(items: seq<Json>)
    | JObject(fields: map<string, Json>)

  /** `JSON.parse` (None when it throws) and `JSON.stringify`. */
  datatype JsonCodec = JsonCodec(parse: string -> Option<Json>, stringify: Json -> string)

  const StorageKey: string := "world-clock-cities"
  const TestKey: string := "__storage_test__"

  /** `window.localStorage`. When `enabled` is false every access throws (storage blocked or
    * missing); `rejects(items, key, value)` says that writing `value` under `key` throws
    * (quota exceeded). */
  class Storage {
    var items: map<string, string>
    var enabled: bool
    const rejects: (map<string, string>, string, string) -> bool

    constructor (items: map<string, string>, enabled: bool, rejects: (map<string, string>, string, string) -> bool)
      ensures this.items == items && this.enabled == enabled && this.rejects == rejects
    {
      this.items := items;
      this.enabled := enabled;
      this.rejects := rejects;
    }

    /** `setItem`; false when it throws, and then nothing is written. */
    method SetItem(key: string, value: string) returns (ok: bool)
      modifies this
      ensures ok <==> old(enabled) && !rejects(old(items), key, value)
      ensures ok ==> items == old(items)[key := value]
      ensures !ok ==> items == old(items)
      ensures enabled == old(enabled)
    {
      ok := enabled && !rejects(items, key, value);
      if ok {
        items := items[key := value];
      }
    }

    /** `removeItem`; false when it throws. Removing an absent key is not an error. */
    method RemoveItem(key: string) returns (ok: bool)
      modifies this
      ensures ok <==> old(enabled)
      ensures ok ==> items == old(items) - {key}
      ensures !ok ==> items == old(items)
      ensures enabled == old(enabled)
    {
      ok := enabled;
      if ok {
        items := items - {key};
      }
    }
  }

  function CoordinatesJson(c: Coordinates): Json {
    JObject(map["lat" := JNumber(c.lat), "lng" := JNumber(c.lng)])
  }

  /** The object `JSON.stringify` writes for a city; absent coordinates are left out. */
  function CityJson(c: City): (j: Json)
    ensures IsCityEntry(j)
  {
    var fields := map["id" := JString(c.id), "name" := JString(c.name),
                      "country" := JString(c.country), "timezone" := JString(c.timezone)];
    match c.coordinates
    case None => JObject(fields)
    case Some(coords) => JObject(fields["coordinates" := CoordinatesJson(coords)])
  }

  function CitiesJson(cities: seq<City>): (j: Json)
    ensures j.JArray? && |j.items| == |cities|
    ensures forall i :: 0 <= i < |cities| ==> j.items[i] == CityJson(cities[i])
  {
    JArray(seq(|cities|, i requires 0 <= i < |cities| => CityJson(cities[i])))
  }

  /** The text saveCities writes. */
  function Serialize(codec: JsonCodec, cities: seq<City>): string {
    codec.stringify(CitiesJson(cities))
  }

  predicate IsStringField(fields: map<string, Json>, key: string) {
    key in fields && fields[key].JString?
  }

  /** The shape filter of loadCities: a truthy entry whose id, name, country and timezone are
    * strings (other values have no such properties and are dropped). */
  predicate IsCityEntry(j: Json) {
    && j.JObject?
    && IsStringField(j.fields, "id") && IsStringField(j.fields, "name")
    && IsStringField(j.fields, "country") && IsStringField(j.fields, "timezone")
  }

  /** The coordinates of an entry, when it carries two numbers under `lat` and `lng`. */
  function EntryCoordinates(fields: map<string, Json>): Option<Coordinates> {
    if "coordinates" in fields && fields["coordinates"].JObject?
       && "lat" in fields["coordinates"].fields && fields["coordinates"].fields["lat"].JNumber?
       && "lng" in fields["coordinates"].fields && fields["coordinates"].fields["lng"].JNumber?
    then Some(Coordinates(fields["coordinates"].fields["lat"].n, fields["coordinates"].fields["lng"].n))
    else None
  }

  /** The city an accepted entry stands for. */
  function EntryCity(j: Json): (c: City)
    requires IsCityEntry(j)
    ensures c.id == j.fields["id"].s && c.name == j.fields["name"].s
    ensures c.country == j.fields["country"].s && c.timezone == j.fields["timezone"].s
  {
    City(j.fields["id"].s, j.fields["name"].s, j.fields["country"].s, j.fields["timezone"].s,
         EntryCoordinates(j.fields))
  }

  /** A written city reads back as itself. */
  lemma EntryCityOfCityJson(c: City)
    ensures EntryCity(CityJson(c)) == c
  {
    if c.coordinates.Some? {
      assert CityJson(c).fields["coordinates"] == CoordinatesJson(c.coordinates.value);
    } else {
      assert "coordinates" !in CityJson(c).fields;
    }
  }

  /** loadCities on the stored text (None: no such key): no text, empty text, text that does
    * not parse and JSON that is not an array all give []; otherwise the entries that pass the
    * shape filter, in stored order. */
  function Decode(codec: JsonCodec, stored: Option<string>): (r: seq<City>)
    ensures stored.None? || stored.value == "" ==> r == []
    ensures stored.Some? && stored.value != "" && (codec.parse(stored.value).None? || !codec.parse(stored.value).value.JArray?) ==> r == []
    ensures stored.Some? && stored.value != "" && codec.parse(stored.value).Some? && codec.parse(stored.value).value.JArray? ==>
              var kept := Filter(IsCityEntry, codec.parse(stored.value).value.items);
              |r| == |kept| && forall i :: 0 <= i < |kept| ==> r[i] == EntryCity(kept[i])
  {
    if stored.None? || stored.value == "" then []
    else match codec.parse(stored.value)
      case Some(JArray(entries)) =>
        var kept := Filter(IsCityEntry, entries);
        seq(|kept|, i requires 0 <= i < |kept| => EntryCity(kept[i]))
      case _ => []
  }

  /** The codec reads back what it writes for this list. */
  predicate RoundTrips(codec: JsonCodec, cities: seq<City>) {
    codec.parse(Serialize(codec, cities)) == Some(CitiesJson(cities))
  }

  /** Loading what was saved gives the saved list back, whenever the codec reads back its own
    * text and that text is not empty (JSON text of an array never is). */
  lemma DecodeSerialize(codec: JsonCodec, cities: seq<City>)
    requires RoundTrips(codec, cities) && Serialize(codec, cities) != ""
    ensures Decode(codec, Some(Serialize(codec, cities))) == cities
  {
    var entries := CitiesJson(cities).items;
    FilterKeepsAll(IsCityEntry, entries);
    var r := Decode(codec, Some(Serialize(codec, cities)));
    forall i | 0 <= i < |cities|
      ensures r[i] == cities[i]
    {
      EntryCityOfCityJson(cities[i]);
    }
  }

  /** loadCities: [] when storage throws, otherwise Decode of the stored text. */
  function LoadCities(store: Storage, codec: JsonCodec): (r: seq<City>)
    reads store
    ensures !store.enabled || StorageKey !in store.items ==> r == []
  {
    if !store.enabled then []
    else Decode(codec, if StorageKey in store.items then Some(store.items[StorageKey]) else None)
  }

  /** saveCities: writes the serialised list under the storage key; false when the write throws,
    * and then the store is unchanged. */
  method SaveCities(store: Storage, codec: JsonCodec, cities: seq<City>) returns (ok: bool)
    modifies store
    ensures ok <==> old(store.enabled) && !store.rejects(old(store.items), StorageKey, Serialize(codec, cities))
    ensures ok ==> store.items == old(store.items)[StorageKey := Serialize(codec, cities)]
    ensures !ok ==> store.items == old(store.items)
    ensures store.enabled == old(store.enabled)
    ensures ok && RoundTrips(codec, cities) && Serialize(codec, cities) != "" ==> LoadCities(store, codec) == cities
  {
    var serialized := Serialize(codec, cities);
    ok := store.SetItem(StorageKey, serialized);
    if ok && RoundTrips(codec, cities) && serialized != "" {
      DecodeSerialize(codec, cities);
    }
  }

  /** isStorageAvailable: a test write and remove; true exactly when both succeed, and then the
    * test key is gone. */
  method IsStorageAvailable(store: Storage) returns (ok: bool)
    modifies store
    ensures ok <==> old(store.enabled) && !store.rejects(old(store.items), TestKey, TestKey)
    ensures ok ==> store.items == old(store.items) - {TestKey}
    ensures !ok ==> store.items == old(store.items)
    ensures store.enabled == old(store.enabled)
  {
    var written := store.SetItem(TestKey, TestKey);
    if !written {
      return false;
    }
    ok := store.RemoveItem(TestKey);
  }

  /** clearCities: removes the saved list; after it a load gives []. */
  method ClearCities(store: Storage) returns (ok: bool)
    modifies store
    ensures ok <==> old(store.enabled)
    ensures ok ==> store.items == old(store.items) - {StorageKey}
    ensures !ok ==> store.items == old(store.items)
    ensures store.enabled == old(store.enabled)
    ensures ok ==> forall codec :: LoadCities(store, codec) == []
  {
    ok := store.RemoveItem(StorageKey);
  }
}
