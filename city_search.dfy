/** The city search: by name or country, and by region. */
module CitySearch {
  import opened Wrappers
  import opened Lists
  import opened Text
  import opened Records

  /** The name or the country contains the query, ignoring case. */
  predicate MatchesQuery(query: string, c: City)
  {
    Contains(Lower(c.name), Lower(query)) || Contains(Lower(c.country), Lower(query))
  }

  /** Region "all" selects every city; any other value selects the cities with exactly that region. */
  predicate MatchesRegion(region: string, c: City)
  {
    region == "all" || (c.region.Some? && c.region.value == region)
  }

  function Selects(query: string, region: string): City -> bool
  {
    (c: City) => MatchesQuery(query, c) && MatchesRegion(region, c)
  }

  /** `filteredCities`, over the cities in popularity order. */
  function FilterCities(cities: seq<City>, query: string, region: string): (r: seq<City>)
    ensures IsSublist(r, cities)
    ensures forall c :: c in r <==> c in cities && MatchesQuery(query, c) && MatchesRegion(region, c)
    ensures forall c :: c in cities ==> multiset(r)[c] == if MatchesQuery(query, c) && MatchesRegion(region, c) then multiset(cities)[c] else 0
  {
    var r := Filter(cities, Selects(query, region));
    forall c ensures c in r <==> c in cities && Selects(query, region)(c) {
      FilterMembership(cities, Selects(query, region), c);
    }
    FilterCounts(cities, Selects(query, region));
    r
  }

  /** With an empty query and region "all", every city is listed in popularity order. */
  lemma NoFilterKeepsAll(cities: seq<City>)
    ensures FilterCities(cities, "", "all") == cities
  {
    forall i | 0 <= i < |cities| ensures Selects("", "all")(cities[i]) {
      EmptyContained(Lower(cities[i].name));
    }
    FilterKeepsAll(cities, Selects("", "all"));
  }

  /**
   * Typing more, so that the new query contains the old one, never brings a city back: the new
   * result is a sublist of the old.
   */
  lemma NarrowingQuery(cities: seq<City>, query: string, longer: string, region: string)
    requires Contains(longer, query)
    ensures IsSublist(FilterCities(cities, longer, region), FilterCities(cities, query, region))
  {
    LowerPreservesContains(longer, query);
    forall i | 0 <= i < |cities| && Selects(longer, region)(cities[i])
      ensures Selects(query, region)(cities[i])
    {
      if Contains(Lower(cities[i].name), Lower(longer)) {
        ContainsTransitive(Lower(cities[i].name), Lower(longer), Lower(query));
      } else {
        ContainsTransitive(Lower(cities[i].country), Lower(longer), Lower(query));
      }
    }
    FilterMonotone(cities, Selects(longer, region), Selects(query, region));
  }
}
