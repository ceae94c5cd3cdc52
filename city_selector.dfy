/**
 * src/components/CitySelector.tsx: the searchable picker that adds a city to the dashboard. Its
 * three state variables are the fields of a class; the option lists it renders are functions of
 * that state and of the ids already on the dashboard.
 */
module CitySelector {
  import opened Wrappers
  import opened Strings
  import opened Types
  import opened Seqs
  import Cities

  const AllAddedMessage: string := "All cities have been added to your dashboard"
  const NoMatchMessage: string := "No cities found matching your search"

  /** One entry of the picker: the city's id as value, "name, country" as label. */
  datatype SelectOption = SelectOption(value: string, labelText: string, city: City)

  /** availableCities: the loaded cities not yet on the dashboard, in order. */
  function AvailableCities(cities: seq<City>, selectedCityIds: seq<string>): (r: seq<City>)
    ensures forall i :: 0 <= i < |r| ==> r[i] in cities && r[i].id !in selectedCityIds
    ensures forall i :: 0 <= i < |cities| && cities[i].id !in selectedCityIds ==> cities[i] in r
    ensures IsSubsequence(r, cities)
  {
    FilterIsSubsequence((c: City) => c.id !in selectedCityIds, cities);
    Filter((c: City) => c.id !in selectedCityIds, cities)
  }

  /** The cities already on the dashboard, in order: the other half of the split. */
  function OnDashboard(cities: seq<City>, selectedCityIds: seq<string>): seq<City> {
    Filter((c: City) => c.id in selectedCityIds, cities)
  }

  /** Every loaded city is either offered or already on the dashboard, and never both. */
  lemma AvailablePartition(cities: seq<City>, selectedCityIds: seq<string>)
    ensures multiset(AvailableCities(cities, selectedCityIds)) + multiset(OnDashboard(cities, selectedCityIds)) == multiset(cities)
  {
    FilterPartition((c: City) => c.id !in selectedCityIds, (c: City) => c.id in selectedCityIds, cities);
  }

  /** selectData: one option per available city, in the same order. */
  function SelectData(available: seq<City>): (r: seq<SelectOption>)
    ensures |r| == |available|
    ensures forall i :: 0 <= i < |r| ==>
              r[i].value == available[i].id && r[i].city == available[i]
              && r[i].labelText == available[i].name + ", " + available[i].country
  {
    seq(|available|, i requires 0 <= i < |available| =>
      SelectOption(available[i].id, available[i].name + ", " + available[i].country, available[i]))
  }

  /** The label contains the search text, ignoring the case of both. */
  predicate LabelMatches(o: SelectOption, searchValue: string) {
    Contains(Lower(o.labelText), Lower(searchValue))
  }

  /** filteredData: the options whose label matches the search, in order. */
  function FilteredData(data: seq<SelectOption>, searchValue: string): (r: seq<SelectOption>)
    ensures forall i :: 0 <= i < |r| ==> r[i] in data && LabelMatches(r[i], searchValue)
    ensures forall i :: 0 <= i < |data| && LabelMatches(data[i], searchValue) ==> data[i] in r
    ensures IsSubsequence(r, data)
  {
    FilterIsSubsequence((o: SelectOption) => LabelMatches(o, searchValue), data);
    Filter((o: SelectOption) => LabelMatches(o, searchValue), data)
  }

  /** An empty search shows every option. */
  lemma FilteredDataEmptySearch(data: seq<SelectOption>)
    ensures FilteredData(data, "") == data
  {
    var p := (o: SelectOption) => LabelMatches(o, "");
    forall k | 0 <= k < |data|
      ensures p(data[k])
    {
      assert OccursAt(Lower(data[k].labelText), "", 0);
    }
    FilterKeepsAll(p, data);
  }

  lemma {:induction false} LowerAppend(a: string, b: string)
    ensures Lower(a + b) == Lower(a) + Lower(b)
  {
  }

  /** Text found in one part of a string is found in the whole. */
  lemma ContainsInPart(a: string, b: string, sub: string)
    ensures Contains(a, sub) ==> Contains(a + b, sub)
    ensures Contains(b, sub) ==> Contains(a + b, sub)
  {
    if Contains(a, sub) {
      var i :| OccursAt(a, sub, i);
      assert (a + b)[i..i + |sub|] == a[i..i + |sub|];
      assert OccursAt(a + b, sub, i);
    }
    if Contains(b, sub) {
      var i :| OccursAt(b, sub, i);
      assert (a + b)[|a| + i..|a| + i + |sub|] == b[i..i + |sub|];
      assert OccursAt(a + b, sub, |a| + i);
    }
  }

  /** A city the catalog search finds for a query has an option whose label matches that query:
    * the picker shows at least what searchCities finds, once the city is available. */
  lemma SearchMatchShowsOption(c: City, query: string)
    requires Cities.MatchesTerm(c, Lower(query))
    ensures LabelMatches(SelectOption(c.id, c.name + ", " + c.country, c), query)
  {
    var caption := c.name + ", " + c.country;
    LowerAppend(c.name, ", " + c.country);
    LowerAppend(", ", c.country);
    assert Lower(caption) == Lower(c.name) + (Lower(", ") + Lower(c.country));
    ContainsInPart(Lower(c.name), Lower(", ") + Lower(c.country), Lower(query));
    ContainsInPart(Lower(", "), Lower(c.country), Lower(query));
  }

  /** nothingFoundMessage: says every city is added exactly when none is available. */
  function NothingFoundMessage(cities: seq<City>, selectedCityIds: seq<string>): (m: string)
    ensures m == AllAddedMessage <==> forall i :: 0 <= i < |cities| ==> cities[i].id in selectedCityIds
    ensures m == NoMatchMessage <==> exists i :: 0 <= i < |cities| && cities[i].id !in selectedCityIds
  {
    var available := AvailableCities(cities, selectedCityIds);
    assert available != [] ==> available[0] in cities;
    if |available| == 0 then AllAddedMessage else NoMatchMessage
  }

  /** The picker's state. */
  class Selector {
    var searchValue: string
    var cities: seq<City>
    var isLoading: bool

    /** The initial useState values: empty search, no cities, loading. */
    constructor ()
      ensures searchValue == "" && cities == [] && isLoading
    {
      searchValue := "";
      cities := [];
      isLoading := true;
    }

    /** The mount effect once the catalog import resolves. */
    method Load(worldCities: seq<City>)
      modifies this
      ensures cities == worldCities && !isLoading && searchValue == old(searchValue)
    {
      cities := worldCities;
      isLoading := false;
    }

    /** onSearchChange. */
    method SetSearchValue(value: string)
      modifies this
      ensures searchValue == value && cities == old(cities) && isLoading == old(isLoading)
    {
      searchValue := value;
    }

    /** The options the picker lists for the current search. */
    function Shown(selectedCityIds: seq<string>): (r: seq<SelectOption>)
      reads this
      ensures forall i :: 0 <= i < |r| ==>
                r[i].city in cities && r[i].city.id !in selectedCityIds
                && r[i].value == r[i].city.id && LabelMatches(r[i], searchValue)
    {
      var data := SelectData(AvailableCities(cities, selectedCityIds));
      var r := FilteredData(data, searchValue);
      assert forall i :: 0 <= i < |r| ==> exists k :: 0 <= k < |data| && r[i] == data[k];
      r
    }

    /** handleCitySelection: a non-empty value naming an available city hands that city to
      * `onCitySelect` (the result) and clears the search; anything else does nothing. The lookup
      * runs over every available option, not only the ones the search shows. */
    method HandleCitySelection(value: Option<string>, selectedCityIds: seq<string>) returns (selected: Option<City>)
      modifies this
      ensures selected.Some? <==>
                value.Some? && value.value != "" && HasId(AvailableCities(old(cities), selectedCityIds), value.value)
      ensures selected.Some? ==>
                selected.value.id == value.value && selected.value in old(cities)
                && selected.value.id !in selectedCityIds && searchValue == ""
      ensures selected.None? ==> searchValue == old(searchValue)
      ensures cities == old(cities) && isLoading == old(isLoading)
    {
      selected := None;
      if value.Some? && value.value != "" {
        var available := AvailableCities(cities, selectedCityIds);
        var selectData := SelectData(available);
        var selectedOption := Find((o: SelectOption) => o.value == value.value, selectData);
        if selectedOption.Some? {
          var k :| 0 <= k < |selectData| && selectData[k] == selectedOption.value;
          assert available[k].id == value.value;
          selected := Some(selectedOption.value.city);
          searchValue := "";
        } else {
          assert forall k :: 0 <= k < |available| ==> available[k].id != value.value by {
            assert forall k :: 0 <= k < |available| ==> selectData[k].value == available[k].id;
          }
        }
      }
    }
  }
}
