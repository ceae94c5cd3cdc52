/**
 * src/data/cities.ts: the catalog of selectable cities, grouped by the source's regions (Europe in two parts), and
 * its two lookups. Every id ends in a two-letter country code, and no country appears in two
 * regions; the proof that ids are distinct uses that to check each region on its own.
 */
module Cities {
  import opened Wrappers
  import opened Strings
  import opened Types
  import opened Seqs

  /** North America. */
  const NorthAmerica: seq<City> := [
    City("new-york-us", "New York", "United States", "America/New_York", Some(Coordinates(40.7128, -74.006))),
    City("los-angeles-us", "Los Angeles", "United States", "America/Los_Angeles", Some(Coordinates(34.0522, -118.2437))),
    City("chicago-us", "Chicago", "United States", "America/Chicago", Some(Coordinates(41.8781, -87.6298))),
    City("toronto-ca", "Toronto", "Canada", "America/Toronto", Some(Coordinates(43.6532, -79.3832))),
    City("vancouver-ca", "Vancouver", "Canada", "America/Vancouver", Some(Coordinates(49.2827, -123.1207))),
    City("seattle-us", "Seattle", "United States", "America/Los_Angeles", Some(Coordinates(47.6062, -122.3321))),
    City("mexico-city-mx", "Mexico City", "Mexico", "America/Mexico_City", Some(Coordinates(19.4326, -99.1332)))
  ]

  const NorthAmericaCodes: set<(char, char)> := {('u', 's'), ('c', 'a'), ('m', 'x')}

  /** Central America. */
  const CentralAmerica: seq<City> := [
    City("guatemala-city-gt", "Guatemala City", "Guatemala", "America/Guatemala", Some(Coordinates(14.6349, -90.5069))),
    City("san-jose-cr", "San Jos\U{E9}", "Costa Rica", "America/Costa_Rica", Some(Coordinates(9.9281, -84.0907))),
    City("panama-city-pa", "Panama City", "Panama", "America/Panama", Some(Coordinates(8.9824, -79.5199))),
    City("tegucigalpa-hn", "Tegucigalpa", "Honduras", "America/Tegucigalpa", Some(Coordinates(14.0723, -87.1921))),
    City("managua-ni", "Managua", "Nicaragua", "America/Managua", Some(Coordinates(12.1364, -86.2514)))
  ]

  const CentralAmericaCodes: set<(char, char)> := {('g', 't'), ('c', 'r'), ('p', 'a'), ('h', 'n'), ('n', 'i')}

  /** South America. */
  const SouthAmerica: seq<City> := [
    City("sao-paulo-br", "S\U{E3}o Paulo", "Brazil", "America/Sao_Paulo", Some(Coordinates(-23.5505, -46.6333))),
    City("buenos-aires-ar", "Buenos Aires", "Argentina", "America/Argentina/Buenos_Aires", Some(Coordinates(-34.6118, -58.396))),
    City("lima-pe", "Lima", "Peru", "America/Lima", Some(Coordinates(-12.0464, -77.0428)))
  ]

  const SouthAmericaCodes: set<(char, char)> := {('b', 'r'), ('a', 'r'), ('p', 'e')}

  /** Europe, first part: London to Zurich (the source lists Europe as one group). */
  const EuropeWest: seq<City> := [
    City("london-gb", "London", "United Kingdom", "Europe/London", Some(Coordinates(51.5074, -0.1278))),
    City("paris-fr", "Paris", "France", "Europe/Paris", Some(Coordinates(48.8566, 2.3522))),
    City("berlin-de", "Berlin", "Germany", "Europe/Berlin", Some(Coordinates(52.52, 13.405))),
    City("rome-it", "Rome", "Italy", "Europe/Rome", Some(Coordinates(41.9028, 12.4964))),
    City("madrid-es", "Madrid", "Spain", "Europe/Madrid", Some(Coordinates(40.4168, -3.7038))),
    City("amsterdam-nl", "Amsterdam", "Netherlands", "Europe/Amsterdam", Some(Coordinates(52.3676, 4.9041))),
    City("moscow-ru", "Moscow", "Russia", "Europe/Moscow", Some(Coordinates(55.7558, 37.6176))),
    City("zurich-ch", "Zurich", "Switzerland", "Europe/Zurich", Some(Coordinates(47.3769, 8.5417)))
  ]

  const EuropeWestCodes: set<(char, char)> := {('g', 'b'), ('f', 'r'), ('d', 'e'), ('i', 't'), ('e', 's'), ('n', 'l'), ('r', 'u'), ('c', 'h')}

  /** Europe, second part: Vienna to Brussels. */
  const EuropeEast: seq<City> := [
    City("vienna-at", "Vienna", "Austria", "Europe/Vienna", Some(Coordinates(48.2082, 16.3738))),
    City("prague-cz", "Prague", "Czech Republic", "Europe/Prague", Some(Coordinates(50.0755, 14.4378))),
    City("stockholm-se", "Stockholm", "Sweden", "Europe/Stockholm", Some(Coordinates(59.3293, 18.0686))),
    City("copenhagen-dk", "Copenhagen", "Denmark", "Europe/Copenhagen", Some(Coordinates(55.6761, 12.5683))),
    City("oslo-no", "Oslo", "Norway", "Europe/Oslo", Some(Coordinates(59.9139, 10.7522))),
    City("helsinki-fi", "Helsinki", "Finland", "Europe/Helsinki", Some(Coordinates(60.1699, 24.9384))),
    City("warsaw-pl", "Warsaw", "Poland", "Europe/Warsaw", Some(Coordinates(52.2297, 21.0122))),
    City("budapest-hu", "Budapest", "Hungary", "Europe/Budapest", Some(Coordinates(47.4979, 19.0402))),
    City("brussels-be", "Brussels", "Belgium", "Europe/Brussels", Some(Coordinates(50.8503, 4.3517)))
  ]

  const EuropeEastCodes: set<(char, char)> := {('a', 't'), ('c', 'z'), ('s', 'e'), ('d', 'k'), ('n', 'o'), ('f', 'i'), ('p', 'l'), ('h', 'u'), ('b', 'e')}

  /** Asia. */
  const Asia: seq<City> := [
    City("tokyo-jp", "Tokyo", "Japan", "Asia/Tokyo", Some(Coordinates(35.6762, 139.6503))),
    City("beijing-cn", "Beijing", "China", "Asia/Shanghai", Some(Coordinates(39.9042, 116.4074))),
    City("shanghai-cn", "Shanghai", "China", "Asia/Shanghai", Some(Coordinates(31.2304, 121.4737))),
    City("hong-kong-hk", "Hong Kong", "Hong Kong", "Asia/Hong_Kong", Some(Coordinates(22.3193, 114.1694))),
    City("singapore-sg", "Singapore", "Singapore", "Asia/Singapore", Some(Coordinates(1.3521, 103.8198))),
    City("mumbai-in", "Mumbai", "India", "Asia/Kolkata", Some(Coordinates(19.076, 72.8777))),
    City("delhi-in", "Delhi", "India", "Asia/Kolkata", Some(Coordinates(28.7041, 77.1025))),
    City("bangkok-th", "Bangkok", "Thailand", "Asia/Bangkok", Some(Coordinates(13.7563, 100.5018))),
    City("seoul-kr", "Seoul", "South Korea", "Asia/Seoul", Some(Coordinates(37.5665, 126.978)))
  ]

  const AsiaCodes: set<(char, char)> := {('j', 'p'), ('c', 'n'), ('h', 'k'), ('s', 'g'), ('i', 'n'), ('t', 'h'), ('k', 'r')}

  /** Southeast Asia. */
  const SoutheastAsia: seq<City> := [
    City("manila-ph", "Manila", "Philippines", "Asia/Manila", Some(Coordinates(14.5995, 120.9842))),
    City("jakarta-id", "Jakarta", "Indonesia", "Asia/Jakarta", Some(Coordinates(-6.2088, 106.8456))),
    City("kuala-lumpur-my", "Kuala Lumpur", "Malaysia", "Asia/Kuala_Lumpur", Some(Coordinates(3.139, 101.6869))),
    City("ho-chi-minh-vn", "Ho Chi Minh City", "Vietnam", "Asia/Ho_Chi_Minh", Some(Coordinates(10.8231, 106.6297))),
    City("hanoi-vn", "Hanoi", "Vietnam", "Asia/Ho_Chi_Minh", Some(Coordinates(21.0285, 105.8542))),
    City("yangon-mm", "Yangon", "Myanmar", "Asia/Yangon", Some(Coordinates(16.8661, 96.1951))),
    City("phnom-penh-kh", "Phnom Penh", "Cambodia", "Asia/Phnom_Penh", Some(Coordinates(11.5564, 104.9282)))
  ]

  const SoutheastAsiaCodes: set<(char, char)> := {('p', 'h'), ('i', 'd'), ('m', 'y'), ('v', 'n'), ('m', 'm'), ('k', 'h')}

  /** Middle East. */
  const MiddleEast: seq<City> := [
    City("dubai-ae", "Dubai", "United Arab Emirates", "Asia/Dubai", Some(Coordinates(25.2048, 55.2708))),
    City("istanbul-tr", "Istanbul", "Turkey", "Europe/Istanbul", Some(Coordinates(41.0082, 28.9784)))
  ]

  const MiddleEastCodes: set<(char, char)> := {('a', 'e'), ('t', 'r')}

  /** Africa. */
  const Africa: seq<City> := [
    City("cairo-eg", "Cairo", "Egypt", "Africa/Cairo", Some(Coordinates(30.0444, 31.2357))),
    City("johannesburg-za", "Johannesburg", "South Africa", "Africa/Johannesburg", Some(Coordinates(-26.2041, 28.0473))),
    City("lagos-ng", "Lagos", "Nigeria", "Africa/Lagos", Some(Coordinates(6.5244, 3.3792))),
    City("nairobi-ke", "Nairobi", "Kenya", "Africa/Nairobi", Some(Coordinates(-1.2921, 36.8219))),
    City("casablanca-ma", "Casablanca", "Morocco", "Africa/Casablanca", Some(Coordinates(33.5731, -7.5898))),
    City("accra-gh", "Accra", "Ghana", "Africa/Accra", Some(Coordinates(5.6037, -0.187))),
    City("addis-ababa-et", "Addis Ababa", "Ethiopia", "Africa/Addis_Ababa", Some(Coordinates(9.145, 38.7451))),
    City("cape-town-za", "Cape Town", "South Africa", "Africa/Johannesburg", Some(Coordinates(-33.9249, 18.4241))),
    City("dar-es-salaam-tz", "Dar es Salaam", "Tanzania", "Africa/Dar_es_Salaam", Some(Coordinates(-6.7924, 39.2083)))
  ]

  const AfricaCodes: set<(char, char)> := {('e', 'g'), ('z', 'a'), ('n', 'g'), ('k', 'e'), ('m', 'a'), ('g', 'h'), ('e', 't'), ('t', 'z')}

  /** Oceania. */
  const Oceania: seq<City> := [
    City("sydney-au", "Sydney", "Australia", "Australia/Sydney", Some(Coordinates(-33.8688, 151.2093))),
    City("melbourne-au", "Melbourne", "Australia", "Australia/Melbourne", Some(Coordinates(-37.8136, 144.9631))),
    City("auckland-nz", "Auckland", "New Zealand", "Pacific/Auckland", Some(Coordinates(-36.8485, 174.7633)))
  ]

  const OceaniaCodes: set<(char, char)> := {('a', 'u'), ('n', 'z')}

  /** WORLD_CITIES: the regions in catalog order. */
  const WorldCities: seq<City> :=
    NorthAmerica + CentralAmerica + SouthAmerica + EuropeWest + EuropeEast + Asia
    + SoutheastAsia + MiddleEast + Africa + Oceania

  /** The two-letter country code that ends a catalog id. */
  function CountryCode(id: string): (char, char) {
    if |id| >= 2 then (id[|id| - 2], id[|id| - 1]) else (' ', ' ')
  }

  /** The position, in catalog order, of the region a country code belongs to. */
  function RegionOf(code: (char, char)): nat {
    if code in NorthAmericaCodes then 0
    else if code in CentralAmericaCodes then 1
    else if code in SouthAmericaCodes then 2
    else if code in EuropeWestCodes then 3
    else if code in EuropeEastCodes then 4
    else if code in AsiaCodes then 5
    else if code in SoutheastAsiaCodes then 6
    else if code in MiddleEastCodes then 7
    else if code in AfricaCodes then 8
    else if code in OceaniaCodes then 9
    else 10
  }

  /*
   * Proof layout. The catalog's ids are shown distinct region by region: every id ends in its
   * country code, each code belongs to one region, and JoinRegions adds the regions one at a
   * time. The split into regions, and the smaller lemmas per region below (ids distinct, codes
   * in the region's set, region number), serve only to keep each proof obligation small for the
   * solver; the catalog itself is one list, WorldCities, in the order of src/data/cities.ts, and
   * the European regions are split in two only for that reason.
   */

  /** Every city of `s` belongs to a region before position `k`. */
  predicate RegionsBelow(s: seq<City>, k: nat) {
    forall i :: 0 <= i < |s| ==> RegionOf(CountryCode(s[i].id)) < k
  }

  /** Every city of `s` belongs to the region at position `k`. */
  predicate RegionAt(s: seq<City>, k: nat) {
    forall i :: 0 <= i < |s| ==> RegionOf(CountryCode(s[i].id)) == k
  }

  /** Appending a region with distinct ids to earlier regions with distinct ids keeps the ids
    * distinct, since a city's id fixes its region. */
  lemma {:induction false} JoinRegions(a: seq<City>, b: seq<City>, k: nat)
    requires UniqueIds(a) && RegionsBelow(a, k) && UniqueIds(b) && RegionAt(b, k)
    ensures UniqueIds(a + b) && RegionsBelow(a + b, k + 1)
  {
    var s := a + b;
    forall i, j | 0 <= i < j < |s|
      ensures s[i].id != s[j].id
    {
      if j < |a| {
        assert s[i] == a[i] && s[j] == a[j];
      } else if i >= |a| {
        assert s[i] == b[i - |a|] && s[j] == b[j - |a|];
      } else {
        assert RegionOf(CountryCode(s[i].id)) < k && RegionOf(CountryCode(s[j].id)) == k;
      }
    }
  }

  lemma NorthAmericaDistinct()
    ensures UniqueIds(NorthAmerica) && RegionAt(NorthAmerica, 0)
  {
    NorthAmericaIds();
    NorthAmericaCodesOf();
    NorthAmericaRegion();
  }

  lemma NorthAmericaIds()
    ensures UniqueIds(NorthAmerica)
  {
  }

  lemma NorthAmericaCodesOf()
    ensures forall i :: 0 <= i < |NorthAmerica| ==> CountryCode(NorthAmerica[i].id) in NorthAmericaCodes
  {
  }

  lemma NorthAmericaRegion()
    ensures forall code :: code in NorthAmericaCodes ==> RegionOf(code) == 0
  {
  }

  lemma CentralAmericaDistinct()
    ensures UniqueIds(CentralAmerica) && RegionAt(CentralAmerica, 1)
  {
    CentralAmericaIds();
    CentralAmericaCodesOf();
    CentralAmericaRegion();
  }

  lemma CentralAmericaIds()
    ensures UniqueIds(CentralAmerica)
  {
  }

  lemma CentralAmericaCodesOf()
    ensures forall i :: 0 <= i < |CentralAmerica| ==> CountryCode(CentralAmerica[i].id) in CentralAmericaCodes
  {
  }

  lemma CentralAmericaRegion()
    ensures forall code :: code in CentralAmericaCodes ==> RegionOf(code) == 1
  {
  }

  lemma SouthAmericaDistinct()
    ensures UniqueIds(SouthAmerica) && RegionAt(SouthAmerica, 2)
  {
    SouthAmericaIds();
    SouthAmericaCodesOf();
    SouthAmericaRegion();
  }

  lemma SouthAmericaIds()
    ensures UniqueIds(SouthAmerica)
  {
  }

  lemma SouthAmericaCodesOf()
    ensures forall i :: 0 <= i < |SouthAmerica| ==> CountryCode(SouthAmerica[i].id) in SouthAmericaCodes
  {
  }

  lemma SouthAmericaRegion()
    ensures forall code :: code in SouthAmericaCodes ==> RegionOf(code) == 2
  {
  }

  lemma EuropeWestDistinct()
    ensures UniqueIds(EuropeWest) && RegionAt(EuropeWest, 3)
  {
    EuropeWestIds();
    EuropeWestCodesOf();
    EuropeWestRegion();
  }

  lemma EuropeWestIds()
    ensures UniqueIds(EuropeWest)
  {
  }

  lemma EuropeWestCodesOf()
    ensures forall i :: 0 <= i < |EuropeWest| ==> CountryCode(EuropeWest[i].id) in EuropeWestCodes
  {
  }

  lemma EuropeWestRegion()
    ensures forall code :: code in EuropeWestCodes ==> RegionOf(code) == 3
  {
  }

  lemma EuropeEastDistinct()
    ensures UniqueIds(EuropeEast) && RegionAt(EuropeEast, 4)
  {
    EuropeEastIds();
    EuropeEastCodesOf();
    EuropeEastRegion();
  }

  lemma EuropeEastIds()
    ensures UniqueIds(EuropeEast)
  {
  }

  lemma EuropeEastCodesOf()
    ensures forall i :: 0 <= i < |EuropeEast| ==> CountryCode(EuropeEast[i].id) in EuropeEastCodes
  {
  }

  lemma EuropeEastRegion()
    ensures forall code :: code in EuropeEastCodes ==> RegionOf(code) == 4
  {
  }

  lemma AsiaDistinct()
    ensures UniqueIds(Asia) && RegionAt(Asia, 5)
  {
    AsiaIds();
    AsiaCodesOf();
    AsiaRegion();
  }

  lemma AsiaIds()
    ensures UniqueIds(Asia)
  {
  }

  lemma AsiaCodesOf()
    ensures forall i :: 0 <= i < |Asia| ==> CountryCode(Asia[i].id) in AsiaCodes
  {
  }

  lemma AsiaRegion()
    ensures forall code :: code in AsiaCodes ==> RegionOf(code) == 5
  {
  }

  lemma SoutheastAsiaDistinct()
    ensures UniqueIds(SoutheastAsia) && RegionAt(SoutheastAsia, 6)
  {
    SoutheastAsiaIds();
    SoutheastAsiaCodesOf();
    SoutheastAsiaRegion();
  }

  lemma SoutheastAsiaIds()
    ensures UniqueIds(SoutheastAsia)
  {
  }

  lemma SoutheastAsiaCodesOf()
    ensures forall i :: 0 <= i < |SoutheastAsia| ==> CountryCode(SoutheastAsia[i].id) in SoutheastAsiaCodes
  {
  }

  lemma SoutheastAsiaRegion()
    ensures forall code :: code in SoutheastAsiaCodes ==> RegionOf(code) == 6
  {
  }

  lemma MiddleEastDistinct()
    ensures UniqueIds(MiddleEast) && RegionAt(MiddleEast, 7)
  {
    MiddleEastIds();
    MiddleEastCodesOf();
    MiddleEastRegion();
  }

  lemma MiddleEastIds()
    ensures UniqueIds(MiddleEast)
  {
  }

  lemma MiddleEastCodesOf()
    ensures forall i :: 0 <= i < |MiddleEast| ==> CountryCode(MiddleEast[i].id) in MiddleEastCodes
  {
  }

  lemma MiddleEastRegion()
    ensures forall code :: code in MiddleEastCodes ==> RegionOf(code) == 7
  {
  }

  lemma AfricaDistinct()
    ensures UniqueIds(Africa) && RegionAt(Africa, 8)
  {
    AfricaIds();
    AfricaCodesOf();
    AfricaRegion();
  }

  lemma AfricaIds()
    ensures UniqueIds(Africa)
  {
  }

  lemma AfricaCodesOf()
    ensures forall i :: 0 <= i < |Africa| ==> CountryCode(Africa[i].id) in AfricaCodes
  {
  }

  lemma AfricaRegion()
    ensures forall code :: code in AfricaCodes ==> RegionOf(code) == 8
  {
  }

  lemma OceaniaDistinct()
    ensures UniqueIds(Oceania) && RegionAt(Oceania, 9)
  {
    OceaniaIds();
    OceaniaCodesOf();
    OceaniaRegion();
  }

  lemma OceaniaIds()
    ensures UniqueIds(Oceania)
  {
  }

  lemma OceaniaCodesOf()
    ensures forall i :: 0 <= i < |Oceania| ==> CountryCode(Oceania[i].id) in OceaniaCodes
  {
  }

  lemma OceaniaRegion()
    ensures forall code :: code in OceaniaCodes ==> RegionOf(code) == 9
  {
  }

  lemma CatalogPrefix1()
    ensures UniqueIds(NorthAmerica + CentralAmerica) && RegionsBelow(NorthAmerica + CentralAmerica, 2)
  {
    NorthAmericaDistinct();
    assert RegionsBelow(NorthAmerica, 1);
    CentralAmericaDistinct();
    JoinRegions(NorthAmerica, CentralAmerica, 1);
  }

  lemma CatalogPrefix2()
    ensures UniqueIds(NorthAmerica + CentralAmerica + SouthAmerica) && RegionsBelow(NorthAmerica + CentralAmerica + SouthAmerica, 3)
  {
    CatalogPrefix1();
    SouthAmericaDistinct();
    JoinRegions(NorthAmerica + CentralAmerica, SouthAmerica, 2);
  }

  lemma CatalogPrefix3()
    ensures UniqueIds(NorthAmerica + CentralAmerica + SouthAmerica + EuropeWest) && RegionsBelow(NorthAmerica + CentralAmerica + SouthAmerica + EuropeWest, 4)
  {
    CatalogPrefix2();
    EuropeWestDistinct();
    JoinRegions(NorthAmerica + CentralAmerica + SouthAmerica, EuropeWest, 3);
  }

  lemma CatalogPrefix4()
    ensures UniqueIds(NorthAmerica + CentralAmerica + SouthAmerica + EuropeWest + EuropeEast) && RegionsBelow(NorthAmerica + CentralAmerica + SouthAmerica + EuropeWest + EuropeEast, 5)
  {
    CatalogPrefix3();
    EuropeEastDistinct();
    JoinRegions(NorthAmerica + CentralAmerica + SouthAmerica + EuropeWest, EuropeEast, 4);
  }

  lemma CatalogPrefix5()
    ensures UniqueIds(NorthAmerica + CentralAmerica + SouthAmerica + EuropeWest + EuropeEast + Asia) && RegionsBelow(NorthAmerica + CentralAmerica + SouthAmerica + EuropeWest + EuropeEast + Asia, 6)
  {
    CatalogPrefix4();
    AsiaDistinct();
    JoinRegions(NorthAmerica + CentralAmerica + SouthAmerica + EuropeWest + EuropeEast, Asia, 5);
  }

  lemma CatalogPrefix6()
    ensures UniqueIds(NorthAmerica + CentralAmerica + SouthAmerica + EuropeWest + EuropeEast + Asia + SoutheastAsia) && RegionsBelow(NorthAmerica + CentralAmerica + SouthAmerica + EuropeWest + EuropeEast + Asia + SoutheastAsia, 7)
  {
    CatalogPrefix5();
    SoutheastAsiaDistinct();
    JoinRegions(NorthAmerica + CentralAmerica + SouthAmerica + EuropeWest + EuropeEast + Asia, SoutheastAsia, 6);
  }

  lemma CatalogPrefix7()
    ensures UniqueIds(NorthAmerica + CentralAmerica + SouthAmerica + EuropeWest + EuropeEast + Asia + SoutheastAsia + MiddleEast) && RegionsBelow(NorthAmerica + CentralAmerica + SouthAmerica + EuropeWest + EuropeEast + Asia + SoutheastAsia + MiddleEast, 8)
  {
    CatalogPrefix6();
    MiddleEastDistinct();
    JoinRegions(NorthAmerica + CentralAmerica + SouthAmerica + EuropeWest + EuropeEast + Asia + SoutheastAsia, MiddleEast, 7);
  }

  lemma CatalogPrefix8()
    ensures UniqueIds(NorthAmerica + CentralAmerica + SouthAmerica + EuropeWest + EuropeEast + Asia + SoutheastAsia + MiddleEast + Africa) && RegionsBelow(NorthAmerica + CentralAmerica + SouthAmerica + EuropeWest + EuropeEast + Asia + SoutheastAsia + MiddleEast + Africa, 9)
  {
    CatalogPrefix7();
    AfricaDistinct();
    JoinRegions(NorthAmerica + CentralAmerica + SouthAmerica + EuropeWest + EuropeEast + Asia + SoutheastAsia + MiddleEast, Africa, 8);
  }

  lemma CatalogPrefix9()
    ensures UniqueIds(NorthAmerica + CentralAmerica + SouthAmerica + EuropeWest + EuropeEast + Asia + SoutheastAsia + MiddleEast + Africa + Oceania) && RegionsBelow(NorthAmerica + CentralAmerica + SouthAmerica + EuropeWest + EuropeEast + Asia + SoutheastAsia + MiddleEast + Africa + Oceania, 10)
  {
    CatalogPrefix8();
    OceaniaDistinct();
    JoinRegions(NorthAmerica + CentralAmerica + SouthAmerica + EuropeWest + EuropeEast + Asia + SoutheastAsia + MiddleEast + Africa, Oceania, 9);
  }

  /** No two catalog cities share an id. */
  lemma CatalogIdsDistinct()
    ensures UniqueIds(WorldCities)
  {
    CatalogPrefix9();
  }

  /** getCityById: the catalog city with this id, None for `undefined`. */
  function GetCityById(id: string): (r: Option<City>)
    ensures r.Some? ==> r.value in WorldCities && r.value.id == id
    ensures r.None? <==> !HasId(WorldCities, id)
  {
    Find((c: City) => c.id == id, WorldCities)
  }

  /** Looking up a catalog city's id gives that city back. */
  lemma GetCityByIdOfCatalog(i: int)
    requires 0 <= i < |WorldCities|
    ensures GetCityById(WorldCities[i].id) == Some(WorldCities[i])
  {
    var id := WorldCities[i].id;
    var p := (c: City) => c.id == id;
    CatalogIdsDistinct();
    var j := FindIndex(p, WorldCities);
    assert p(WorldCities[i]);
    assert j.Some? && j.value <= i;
    assert WorldCities[j.value].id == id;
  }

  /** The case-insensitive name-or-country test of searchCities, against a lowercased term. */
  predicate MatchesTerm(c: City, searchTerm: string) {
    Contains(Lower(c.name), searchTerm) || Contains(Lower(c.country), searchTerm)
  }

  /** searchCities: the catalog cities whose name or country contains the query, ignoring case,
    * in catalog order. */
  function SearchCities(query: string): (r: seq<City>)
    ensures forall i :: 0 <= i < |r| ==> r[i] in WorldCities && MatchesTerm(r[i], Lower(query))
    ensures forall i :: 0 <= i < |WorldCities| && MatchesTerm(WorldCities[i], Lower(query)) ==> WorldCities[i] in r
    ensures IsSubsequence(r, WorldCities)
  {
    var searchTerm := Lower(query);
    FilterIsSubsequence((c: City) => MatchesTerm(c, searchTerm), WorldCities);
    Filter((c: City) => MatchesTerm(c, searchTerm), WorldCities)
  }

  /** The empty query matches every city: the whole catalog comes back. */
  lemma SearchEmptyQuery()
    ensures SearchCities("") == WorldCities
  {
    var p := (c: City) => MatchesTerm(c, Lower(""));
    forall i | 0 <= i < |WorldCities|
      ensures p(WorldCities[i])
    {
      assert OccursAt(Lower(WorldCities[i].name), "", 0);
    }
    FilterKeepsAll(p, WorldCities);
  }
}
