/**
 * src/hooks/useCityManager.ts: the dashboard's city registry. The hook's four state variables
 * are the fields of a class; initialisation, addCity and removeCity are its methods, and they
 * write the saved list through CityStorage.
 */
module CityManager {
  import opened Wrappers
  import opened Types
  import opened Seqs
  import opened CityStorage

  const StorageUnavailableMessage: string := "Local storage is not available. Cities will not persist between sessions."
  const AddSaveFailedMessage: string := "Failed to save city. Changes may not persist."
  const RemoveSaveFailedMessage: string := "Failed to save changes. City may reappear on refresh."

  function DuplicateMessage(name: string): string {
    name + " is already in your dashboard"
  }

  /** The cities without any city of this id, in order, every other city as often as before. */
  function WithoutId(cities: seq<City>, cityId: string): (r: seq<City>)
    ensures !HasId(r, cityId)
    ensures forall i :: 0 <= i < |cities| && cities[i].id != cityId ==> cities[i] in r
    ensures IsSubsequence(r, cities)
    ensures !HasId(cities, cityId) ==> r == cities
    ensures UniqueIds(cities) ==> UniqueIds(r)
    ensures forall c: City :: c.id != cityId ==> multiset(r)[c] == multiset(cities)[c]
  {
    var keep := (c: City) => c.id != cityId;
    assert forall c: City :: c.id != cityId ==> multiset(Filter(keep, cities))[c] == multiset(cities)[c] by {
      forall c: City | c.id != cityId
        ensures multiset(Filter(keep, cities))[c] == multiset(cities)[c]
      {
        FilterCount(keep, cities, c);
      }
    }
    FilterIsSubsequence(keep, cities);
    assert !HasId(cities, cityId) ==> Filter(keep, cities) == cities by {
      if !HasId(cities, cityId) {
        FilterKeepsAll(keep, cities);
      }
    }
    assert UniqueIds(cities) ==> UniqueIds(Filter(keep, cities)) by {
      if UniqueIds(cities) {
        SubsequenceKeepsUniqueIds(Filter(keep, cities), cities);
      }
    }
    Filter(keep, cities)
  }

  /** Deleting entries cannot create a repeated id. */
  lemma {:induction false} SubsequenceKeepsUniqueIds(sub: seq<City>, s: seq<City>)
    requires IsSubsequence(sub, s) && UniqueIds(s)
    ensures UniqueIds(sub)
    ensures forall i :: 0 <= i < |sub| ==> HasId(s, sub[i].id)
  {
    if sub == [] {
    } else if sub[0] == s[0] && IsSubsequence(sub[1..], s[1..]) {
      SubsequenceKeepsUniqueIds(sub[1..], s[1..]);
      forall i | 0 <= i < |sub|
        ensures HasId(s, sub[i].id)
      {
        if i == 0 {
          assert s[0].id == sub[0].id;
        } else {
          assert sub[i] == sub[1..][i - 1];
          var k :| 0 <= k < |s[1..]| && s[1..][k].id == sub[i].id;
          assert s[k + 1].id == sub[i].id;
        }
      }
      forall i, j | 0 <= i < j < |sub|
        ensures sub[i].id != sub[j].id
      {
        if i == 0 {
          assert sub[j] == sub[1..][j - 1];
          var k :| 0 <= k < |s[1..]| && s[1..][k].id == sub[j].id;
          assert s[k + 1].id == sub[j].id && s[0].id == sub[0].id;
        } else {
          assert sub[i] == sub[1..][i - 1] && sub[j] == sub[1..][j - 1];
        }
      }
    } else {
      SubsequenceKeepsUniqueIds(sub, s[1..]);
      forall i | 0 <= i < |sub|
        ensures HasId(s, sub[i].id)
      {
        var k :| 0 <= k < |s[1..]| && s[1..][k].id == sub[i].id;
        assert s[k + 1].id == sub[i].id;
      }
    }
  }

  /** The registry's state, with the store it saves to. */
  class Registry {
    var cities: seq<City>
    var error: Option<string>
    var hasStorageSupport: bool
    var isLoading: bool
    const store: Storage
    const codec: JsonCodec

    /** The initial useState values: no cities, loading, no storage support, no error. */
    constructor (store: Storage, codec: JsonCodec)
      ensures cities == [] && error == None && !hasStorageSupport && isLoading
      ensures this.store == store && this.codec == codec
    {
      cities := [];
      error := None;
      hasStorageSupport := false;
      isLoading := true;
      this.store := store;
      this.codec := codec;
    }

    /** initializeCities, run once on mount: probe the store, then load the saved list or
      * report that nothing will persist. */
    method Initialize()
      modifies this, store
      ensures !isLoading
      ensures hasStorageSupport <==> old(store.enabled) && !store.rejects(old(store.items), TestKey, TestKey)
      ensures hasStorageSupport ==> cities == LoadCities(store, codec) && error == None
      ensures hasStorageSupport ==> store.items == old(store.items) - {TestKey}
      ensures !hasStorageSupport ==> cities == old(cities) && error == Some(StorageUnavailableMessage)
      ensures !hasStorageSupport ==> store.items == old(store.items)
    ensures store.enabled == old(store.enabled)
    {
      isLoading := true;
      error := None;
      var available := IsStorageAvailable(store);
      hasStorageSupport := available;
      if available {
        cities := LoadCities(store, codec);
      } else {
        error := Some(StorageUnavailableMessage);
      }
      isLoading := false;
    }

    /** addCity: refuses a city whose id is already listed; otherwise appends it, saves when the
      * store is supported, and returns true even when the save fails. */
    method AddCity(city: City) returns (added: bool)
      modifies this, store
      ensures added <==> !HasId(old(cities), city.id)
      ensures !added ==> cities == old(cities) && error == Some(DuplicateMessage(city.name)) && store.items == old(store.items)
      ensures added ==> cities == old(cities) + [city]
      ensures UniqueIds(old(cities)) ==> UniqueIds(cities)
      ensures hasStorageSupport == old(hasStorageSupport) && isLoading == old(isLoading)
    ensures store.enabled == old(store.enabled)
      ensures added && !hasStorageSupport ==> error == None && store.items == old(store.items)
      ensures added && hasStorageSupport ==>
        if old(store.enabled) && !store.rejects(old(store.items), StorageKey, Serialize(codec, cities))
        then error == None && store.items == old(store.items)[StorageKey := Serialize(codec, cities)]
        else error == Some(AddSaveFailedMessage) && store.items == old(store.items)
      ensures added && hasStorageSupport && error == None && RoundTrips(codec, cities) && Serialize(codec, cities) != ""
              ==> LoadCities(store, codec) == cities
    {
      error := None;
      if HasId(cities, city.id) {
        error := Some(DuplicateMessage(city.name));
        return false;
      }
      var updated := cities + [city];
      cities := updated;
      if hasStorageSupport {
        var saved := SaveCities(store, codec, updated);
        if !saved {
          error := Some(AddSaveFailedMessage);
        }
      }
      return true;
    }

    /** removeCity: drops every city with the id, keeps the rest in order, saves when the store
      * is supported, and always returns true. */
    method RemoveCity(cityId: string) returns (removed: bool)
      modifies this, store
      ensures removed
      ensures cities == WithoutId(old(cities), cityId)
      ensures !HasId(old(cities), cityId) ==> cities == old(cities)
      ensures UniqueIds(old(cities)) ==> UniqueIds(cities)
      ensures hasStorageSupport == old(hasStorageSupport) && isLoading == old(isLoading)
    ensures store.enabled == old(store.enabled)
      ensures !hasStorageSupport ==> error == None && store.items == old(store.items)
      ensures hasStorageSupport ==>
        if old(store.enabled) && !store.rejects(old(store.items), StorageKey, Serialize(codec, cities))
        then error == None && store.items == old(store.items)[StorageKey := Serialize(codec, cities)]
        else error == Some(RemoveSaveFailedMessage) && store.items == old(store.items)
      ensures hasStorageSupport && error == None && RoundTrips(codec, cities) && Serialize(codec, cities) != ""
              ==> LoadCities(store, codec) == cities
    {
      error := None;
      var updated := WithoutId(cities, cityId);
      cities := updated;
      if hasStorageSupport {
        var saved := SaveCities(store, codec, updated);
        if !saved {
          error := Some(RemoveSaveFailedMessage);
        }
      }
      return true;
    }
  }
}
