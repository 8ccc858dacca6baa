/** The tabs of the trip list: all, ongoing, upcoming and completed. */
module MyTrips {
  import opened Lists
  import opened Records

  /** Whether a trip is listed under `tab`; a tab the page does not know lists every trip. */
  predicate ListedUnder(tab: string, t: Trip)
  {
    if tab == "all" then true
    else if tab == "ongoing" then t.status == "ongoing"
    else if tab == "upcoming" then t.status == "planning"
    else if tab == "completed" then t.status == "completed"
    else true
  }

  function Listed(tab: string): Trip -> bool
  {
    (t: Trip) => ListedUnder(tab, t)
  }

  /** `filteredTrips`: the trips listed under the active tab, in list order. */
  function FilterTrips(trips: seq<Trip>, tab: string): (r: seq<Trip>)
    ensures IsSublist(r, trips)
    ensures forall t :: t in trips ==> multiset(r)[t] == if ListedUnder(tab, t) then multiset(trips)[t] else 0
  {
    FilterCounts(trips, Listed(tab));
    Filter(trips, Listed(tab))
  }

  /** The status each named tab selects. */
  function TabStatus(tab: string): string
  {
    if tab == "ongoing" then "ongoing" else if tab == "upcoming" then "planning" else "completed"
  }

  /** "all", and any tab other than the three status tabs, list every trip. */
  lemma UnfilteredTabs(trips: seq<Trip>, tab: string)
    requires tab != "ongoing" && tab != "upcoming" && tab != "completed"
    ensures FilterTrips(trips, tab) == trips
  {
    FilterKeepsAll(trips, Listed(tab));
  }

  /** A status tab lists exactly the trips with its status. */
  lemma StatusTab(trips: seq<Trip>, tab: string, t: Trip)
    requires tab == "ongoing" || tab == "upcoming" || tab == "completed"
    ensures t in FilterTrips(trips, tab) <==> t in trips && t.status == TabStatus(tab)
  {
    FilterMembership(trips, Listed(tab), t);
  }

  /** No trip is listed under two different status tabs. */
  lemma StatusTabsDisjoint(trips: seq<Trip>, tab1: string, tab2: string, t: Trip)
    requires tab1 in ["ongoing", "upcoming", "completed"] && tab2 in ["ongoing", "upcoming", "completed"]
    requires tab1 != tab2
    ensures !(t in FilterTrips(trips, tab1) && t in FilterTrips(trips, tab2))
  {
    StatusTab(trips, tab1, t);
    StatusTab(trips, tab2, t);
  }
}
