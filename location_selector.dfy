/**
 * The city picker: a fixed list of thirty cities, filtered by a search
 * term, and the location a chosen city becomes.
 */
module LocationSelector {
  import opened Strings
  import opened Locations

  datatype City = City(name: string, lat: real, lng: real, country: string)

  const POPULAR_CITIES: seq<City> := [
    City("Mecca, Saudi Arabia", 21.4225, 39.8262, "Saudi Arabia"),
    City("Medina, Saudi Arabia", 24.4539, 39.5775, "Saudi Arabia"),
    City("Riyadh, Saudi Arabia", 24.7136, 46.6753, "Saudi Arabia"),
    City("Dubai, UAE", 25.2048, 55.2708, "UAE"),
    City("Istanbul, Turkey", 41.0082, 28.9784, "Turkey"),
    City("Cairo, Egypt", 30.0444, 31.2357, "Egypt"),
    City("London, UK", 51.5074, -0.1278, "UK"),
    City("New York, USA", 40.7128, -74.0060, "USA"),
    City("Los Angeles, USA", 34.0522, -118.2437, "USA"),
    City("Toronto, Canada", 43.6532, -79.3832, "Canada"),
    City("Paris, France", 48.8566, 2.3522, "France"),
    City("Berlin, Germany", 52.5200, 13.4050, "Germany"),
    City("Sydney, Australia", -33.8688, 151.2093, "Australia"),
    City("Jakarta, Indonesia", -6.2088, 106.8456, "Indonesia"),
    City("Kuala Lumpur, Malaysia", 3.1390, 101.6869, "Malaysia"),
    City("Karachi, Pakistan", 24.8607, 67.0011, "Pakistan"),
    City("Lahore, Pakistan", 31.5204, 74.3587, "Pakistan"),
    City("Islamabad, Pakistan", 33.6844, 73.0479, "Pakistan"),
    City("Mumbai, India", 19.0760, 72.8777, "India"),
    City("Delhi, India", 28.7041, 77.1025, "India"),
    City("Dhaka, Bangladesh", 23.8103, 90.4125, "Bangladesh"),
    City("Tehran, Iran", 35.6892, 51.3890, "Iran"),
    City("Baghdad, Iraq", 33.3152, 44.3661, "Iraq"),
    City("Amman, Jordan", 31.9454, 35.9284, "Jordan"),
    City("Beirut, Lebanon", 33.8938, 35.5018, "Lebanon"),
    City("Casablanca, Morocco", 33.5731, -7.5898, "Morocco"),
    City("Tunis, Tunisia", 36.8065, 10.1815, "Tunisia"),
    City("Algiers, Algeria", 36.7538, 3.0588, "Algeria"),
    City("Lagos, Nigeria", 6.5244, 3.3792, "Nigeria"),
    City("Nairobi, Kenya", -1.2921, 36.8219, "Kenya")
  ]

  /** A city is listed when the search term occurs in its name or country, ignoring case. */
  predicate Matches(city: City, searchTerm: string): (m: bool)
    ensures searchTerm == "" ==> m
    ensures m ==> |searchTerm| <= |city.name| || |searchTerm| <= |city.country|
  {
    ContainsEmpty(ToLower(city.name));
    if Contains(ToLower(city.name), ToLower(searchTerm)) then
      ContainsLength(ToLower(city.name), ToLower(searchTerm));
      true
    else if Contains(ToLower(city.country), ToLower(searchTerm)) then
      ContainsLength(ToLower(city.country), ToLower(searchTerm));
      true
    else false
  }

  /** `cities.filter(city => Matches(city, searchTerm))`. */
  function Filter(cities: seq<City>, searchTerm: string): (r: seq<City>)
    ensures |r| <= |cities|
  {
    if cities == [] then []
    else (if Matches(cities[0], searchTerm) then [cities[0]] else []) + Filter(cities[1..], searchTerm)
  }

  /** `filteredCities`. */
  function FilteredCities(searchTerm: string): (r: seq<City>)
    ensures |r| <= |POPULAR_CITIES|
    ensures IsSubsequence(r, POPULAR_CITIES)
  {
    FilterIsSubsequence(POPULAR_CITIES, searchTerm);
    Filter(POPULAR_CITIES, searchTerm)
  }

  /** `a` is `b` with some elements left out, the rest kept in order. */
  predicate IsSubsequence(a: seq<City>, b: seq<City>)
    decreases |b|
  {
    if a == [] then true
    else if b == [] then false
    else (a[0] == b[0] && IsSubsequence(a[1..], b[1..])) || IsSubsequence(a, b[1..])
  }

  /** A city is listed exactly when it is in the list and matches the term. */
  lemma {:induction false} FilterMembership(cities: seq<City>, searchTerm: string, city: City)
    ensures city in Filter(cities, searchTerm) <==> city in cities && Matches(city, searchTerm)
  {
    if cities != [] {
      FilterMembership(cities[1..], searchTerm, city);
      assert cities == [cities[0]] + cities[1..];
    }
  }

  /** Filtering keeps the list's order. */
  lemma {:induction false} FilterIsSubsequence(cities: seq<City>, searchTerm: string)
    ensures IsSubsequence(Filter(cities, searchTerm), cities)
  {
    if cities != [] {
      var rest := Filter(cities[1..], searchTerm);
      FilterIsSubsequence(cities[1..], searchTerm);
      if Matches(cities[0], searchTerm) {
        assert Filter(cities, searchTerm) == [cities[0]] + rest;
        assert ([cities[0]] + rest)[1..] == rest;
      } else {
        assert Filter(cities, searchTerm) == rest;
        SubsequenceOfTail(rest, cities);
      }
    }
  }

  /** A subsequence of the tail is a subsequence of the whole list. */
  lemma SubsequenceOfTail(a: seq<City>, b: seq<City>)
    requires b != [] && IsSubsequence(a, b[1..])
    ensures IsSubsequence(a, b)
  {
  }

  /** The empty term matches every city, so the whole list is kept in order. */
  lemma {:induction false} EmptyTermKeepsAll(cities: seq<City>)
    ensures Filter(cities, "") == cities
  {
    if cities != [] {
      ContainsEmpty(ToLower(cities[0].name));
      assert ToLower("") == "";
      EmptyTermKeepsAll(cities[1..]);
      assert cities == [cities[0]] + cities[1..];
    }
  }

  /** With no search term, all thirty cities are listed. */
  lemma EmptySearchListsAll()
    ensures FilteredCities("") == POPULAR_CITIES && |FilteredCities("")| == 30
  {
    EmptyTermKeepsAll(POPULAR_CITIES);
  }

  /** Terms with the same lower case give the same list. */
  lemma {:induction false} FilterCaseInsensitive(cities: seq<City>, term1: string, term2: string)
    requires ToLower(term1) == ToLower(term2)
    ensures Filter(cities, term1) == Filter(cities, term2)
  {
    if cities != [] {
      FilterCaseInsensitive(cities[1..], term1, term2);
    }
  }

  /** A term, its upper case and its lower case list the same cities. */
  lemma SearchIgnoresCase(searchTerm: string)
    ensures FilteredCities(ToUpper(searchTerm)) == FilteredCities(searchTerm)
    ensures FilteredCities(ToLower(searchTerm)) == FilteredCities(searchTerm)
  {
    ToLowerOfToUpper(searchTerm);
    ToLowerIdempotent(searchTerm);
    FilterCaseInsensitive(POPULAR_CITIES, ToUpper(searchTerm), searchTerm);
    FilterCaseInsensitive(POPULAR_CITIES, ToLower(searchTerm), searchTerm);
  }

  /** `handleLocationSelect`: the location handed on for a chosen city. */
  function SelectLocation(city: City): (loc: Location)
    ensures loc.lat == city.lat && loc.lng == city.lng && loc.city == city.name
  {
    Location(city.lat, city.lng, city.name)
  }

  /** The name shown in the list: `name.split(',')[0]`. */
  function ShortName(name: string): (short: string)
    ensures ',' !in short && IsPrefix(short, name)
    ensures |short| == |name| || name[|short|] == ','
  {
    BeforeFirst(name, ',')
  }

  /** "City, Country" shows as "City". */
  lemma ShortNameOfCityCountry(city: string, country: string)
    requires ',' !in city
    ensures ShortName(city + ", " + country) == city
  {
    assert city + ", " + country == city + [','] + (" " + country);
    BeforeFirstOfJoin(city, ',', " " + country);
  }
}
