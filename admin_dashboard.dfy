/**
 * The admin dashboard's aggregates over all trips, users, cities and community posts: the
 * stat cards, the trip-status distribution, the most visited cities and trips per month.
 */
module AdminDashboard {
  import opened Wrappers
  import opened Lists
  import opened Sorting
  import opened Tally
  import opened Records

  /** One slice of the status pie chart. */
  datatype StatusSlice = StatusSlice(name: string, value: nat)

  /** The four stat cards. */
  datatype Stats = Stats(totalTrips: nat, activeTrips: nat, totalUsers: nat, sharedTrips: nat)

  function HasStatus(s: string): Trip -> bool
  {
    (t: Trip) => t.status == s
  }

  /** A status none of the three slices counts (anything but the three exact strings). */
  function OtherStatus(): Trip -> bool
  {
    (t: Trip) => t.status != "planning" && t.status != "ongoing" && t.status != "completed"
  }

  function StatusCount(trips: seq<Trip>, s: string): nat
  {
    |Filter(trips, HasStatus(s))|
  }

  /** A slice counts the trips, by position, whose status is exactly `s`. */
  lemma StatusCountExact(trips: seq<Trip>, s: string)
    ensures StatusCount(trips, s) == |set i | 0 <= i < |trips| && trips[i].status == s|
  {
    FilterLength(trips, HasStatus(s));
    assert Passing(trips, HasStatus(s)) == set i | 0 <= i < |trips| && trips[i].status == s;
  }

  /** The pie chart's data: always three slices, Planning, Ongoing and Completed, in that order. */
  function StatusData(trips: seq<Trip>): (r: seq<StatusSlice>)
    ensures |r| == 3
    ensures r[0].name == "Planning" && r[1].name == "Ongoing" && r[2].name == "Completed"
    ensures r[0].value <= |trips| && r[1].value <= |trips| && r[2].value <= |trips|
    ensures r[0].value == |set i | 0 <= i < |trips| && trips[i].status == "planning"|
    ensures r[1].value == |set i | 0 <= i < |trips| && trips[i].status == "ongoing"|
    ensures r[2].value == |set i | 0 <= i < |trips| && trips[i].status == "completed"|
  {
    StatusCountExact(trips, "planning");
    StatusCountExact(trips, "ongoing");
    StatusCountExact(trips, "completed");
    [StatusSlice("Planning", StatusCount(trips, "planning")),
     StatusSlice("Ongoing", StatusCount(trips, "ongoing")),
     StatusSlice("Completed", StatusCount(trips, "completed"))]
  }

  /** Every trip is counted by exactly one slice or by none (when its status is something else). */
  lemma {:induction false} StatusPartition(trips: seq<Trip>)
    ensures StatusCount(trips, "planning") + StatusCount(trips, "ongoing") + StatusCount(trips, "completed")
            + |Filter(trips, OtherStatus())| == |trips|
  {
    if trips != [] {
      StatusPartition(trips[1..]);
    }
  }

  /**
   * The slices add up to at most the number of trips, and to exactly that number if and only if
   * every trip's status is one of "planning", "ongoing" and "completed".
   */
  lemma StatusDataTotal(trips: seq<Trip>)
    ensures var r := StatusData(trips);
            r[0].value + r[1].value + r[2].value <= |trips|
    ensures var r := StatusData(trips);
            r[0].value + r[1].value + r[2].value == |trips| <==>
            forall i :: 0 <= i < |trips| ==> trips[i].status in ["planning", "ongoing", "completed"]
  {
    StatusPartition(trips);
    var others := Filter(trips, OtherStatus());
    if others != [] {
      assert others[0] in trips && OtherStatus()(others[0]);
      var i :| 0 <= i < |trips| && trips[i] == others[0];
      assert trips[i].status !in ["planning", "ongoing", "completed"];
    }
  }

  /** The stat cards. */
  function DashboardStats(trips: seq<Trip>, users: seq<User>, posts: seq<Post>): (r: Stats)
    ensures r.totalTrips == |trips| && r.totalUsers == |users| && r.sharedTrips == |posts|
    ensures r.activeTrips == StatusData(trips)[1].value
  {
    Stats(|trips|, |Filter(trips, HasStatus("ongoing"))|, |users|, |posts|)
  }

  /** `trip.cities` with a missing list read as empty (`?.forEach`). */
  function CityRefs(t: Trip): seq<string>
  {
    t.cities.GetOr([])
  }

  /** Whether a city id resolves to a known city. */
  function Resolves(cities: seq<City>): string -> bool
  {
    (id: string) => FindCity(cities, id).Some?
  }

  /** The name of the city `id` resolves to, or nothing. */
  function ResolvedName(cities: seq<City>, id: string): seq<string>
  {
    match FindCity(cities, id)
    case Some(c) => [c.name]
    case None => []
  }

  /** Whether a city id resolves to a known city named `name`. */
  function ResolvesTo(cities: seq<City>, name: string): string -> bool
  {
    (id: string) => FindCity(cities, id).Some? && FindCity(cities, id).value.name == name
  }

  /**
   * The names of the cities that `ids` resolve to, in order; ids that resolve to nothing are
   * skipped, and each name occurs once per id that resolves to a city of that name.
   */
  function ResolvedIn(ids: seq<string>, cities: seq<City>): (r: seq<string>)
    ensures |r| == |Filter(ids, Resolves(cities))|
    ensures forall n :: multiset(r)[n] == |Filter(ids, ResolvesTo(cities, n))|
  {
    if ids == [] then []
    else
      var init, last := ids[..|ids| - 1], ids[|ids| - 1];
      assert ids == init + [last];
      FilterConcat(init, [last], Resolves(cities));
      assert forall n :: Filter(ids, ResolvesTo(cities, n)) ==
                         Filter(init, ResolvesTo(cities, n)) + Filter([last], ResolvesTo(cities, n)) by {
        forall n ensures Filter(ids, ResolvesTo(cities, n)) ==
                         Filter(init, ResolvesTo(cities, n)) + Filter([last], ResolvesTo(cities, n)) {
          FilterConcat(init, [last], ResolvesTo(cities, n));
        }
      }
      ResolvedIn(init, cities) + ResolvedName(cities, last)
  }

  /**
   * The names `ResolvedIn` yields are, position by position, the names of the cities that the
   * resolving ids find, in the order of the ids.
   */
  lemma {:induction false} ResolvedInOrder(ids: seq<string>, cities: seq<City>)
    ensures var r, f := ResolvedIn(ids, cities), Filter(ids, Resolves(cities));
            |r| == |f| && forall i :: 0 <= i < |r| ==> FindCity(cities, f[i]).Some? && r[i] == FindCity(cities, f[i]).value.name
  {
    if ids != [] {
      var init, last := ids[..|ids| - 1], ids[|ids| - 1];
      assert ids == init + [last];
      ResolvedInOrder(init, cities);
      FilterConcat(init, [last], Resolves(cities));
      assert [last][1..] == [];
    }
  }

  /** The names of all resolved city references, trip by trip. */
  function ResolvedNames(trips: seq<Trip>, cities: seq<City>): seq<string>
  {
    if trips == [] then []
    else ResolvedNames(trips[..|trips| - 1], cities) + ResolvedIn(CityRefs(trips[|trips| - 1]), cities)
  }

  /** The number of references in one trip that resolve to a known city. */
  function ResolvedRefCount(cities: seq<City>): Trip -> int
  {
    (t: Trip) => |Filter(CityRefs(t), Resolves(cities))|
  }

  /** Counting one more key is one more `Bump`. */
  lemma CountSnoc<K>(keys: seq<K>, k: K)
    ensures Count(keys + [k]) == Bump(Count(keys), k)
  {
    assert (keys + [k])[..|keys|] == keys;
  }

  lemma ResolvedInStep(ids: seq<string>, j: nat, cities: seq<City>, before: seq<string>)
    requires j < |ids|
    ensures var seen := before + ResolvedIn(ids[..j], cities);
            before + ResolvedIn(ids[..j + 1], cities) ==
            match FindCity(cities, ids[j]) case Some(c) => seen + [c.name] case None => seen
  {
    assert ids[..j + 1][..j] == ids[..j];
  }

  /**
   * The inner loop of `cityCount` over one trip's ids: each id that resolves adds 1 to its
   * city's name.
   */
  method CountTripCities(counts0: seq<Entry<string>>, ids: seq<string>, cities: seq<City>, ghost before: seq<string>)
    returns (counts: seq<Entry<string>>)
    requires counts0 == Count(before)
    ensures counts == Count(before + ResolvedIn(ids, cities))
  {
    counts := counts0;
    assert before + ResolvedIn(ids[..0], cities) == before;
    for j := 0 to |ids|
      invariant counts == Count(before + ResolvedIn(ids[..j], cities))
    {
      ghost var seen := before + ResolvedIn(ids[..j], cities);
      ResolvedInStep(ids, j, cities, before);
      var found := FindCity(cities, ids[j]);
      if found.Some? {
        CountSnoc(seen, found.value.name);
        counts := Bump(counts, found.value.name);
      }
    }
    assert ids[..|ids|] == ids;
  }

  /**
   * `cityCount`: for each trip in order, for each city id in its list, add 1 to the counter of
   * the name of the city it resolves to.
   */
  method CountCities(trips: seq<Trip>, cities: seq<City>) returns (counts: seq<Entry<string>>)
    ensures counts == Count(ResolvedNames(trips, cities))
  {
    counts := [];
    for i := 0 to |trips|
      invariant counts == Count(ResolvedNames(trips[..i], cities))
    {
      assert trips[..i + 1][..i] == trips[..i];
      counts := CountTripCities(counts, CityRefs(trips[i]), cities, ResolvedNames(trips[..i], cities));
    }
    assert trips[..|trips|] == trips;
  }

  /** The number of resolved references over all trips is the sum over trips of each one's count. */
  lemma {:induction false} ResolvedNamesLength(trips: seq<Trip>, cities: seq<City>)
    ensures |ResolvedNames(trips, cities)| == Sum(trips, ResolvedRefCount(cities))
  {
    if trips != [] {
      var init, last := trips[..|trips| - 1], trips[|trips| - 1];
      assert trips == init + [last];
      ResolvedNamesLength(init, cities);
      SumConcat(init, [last], ResolvedRefCount(cities));
    }
  }

  /**
   * The city counters: one entry per distinct resolved name, in first-reference order, each
   * holding the number of resolved references to that name, never zero; together they count
   * every reference that resolves to a known city, and nothing else.
   */
  lemma CityCountsCorrect(trips: seq<Trip>, cities: seq<City>)
    ensures var counts := Count(ResolvedNames(trips, cities));
            DistinctKeys(counts) && Positive(counts) &&
            Keys(counts) == FirstOccurrences(ResolvedNames(trips, cities)) &&
            (forall name :: Lookup(counts, name) == multiset(ResolvedNames(trips, cities))[name]) &&
            Total(counts) == Sum(trips, ResolvedRefCount(cities))
  {
    CountCorrect(ResolvedNames(trips, cities));
    ResolvedNamesLength(trips, cities);
  }

  function EntryCount<K>(e: Entry<K>): int
  {
    e.count
  }

  /** `topCities`: the counters sorted by count, largest first, cut to five. */
  function TopCities(counts: seq<Entry<string>>): seq<Entry<string>>
  {
    Top(counts, EntryCount, 5)
  }

  /**
   * The top cities: at most five, by non-increasing count, each one of the counters with the
   * count its name holds; no city left out has a larger count than one kept, and cities with
   * equal counts appear in the order their counters were created.
   */
  lemma TopCitiesCorrect(counts: seq<Entry<string>>)
    requires DistinctKeys(counts)
    ensures var r := TopCities(counts);
            |r| == (if |counts| < 5 then |counts| else 5) && SortedDesc(r, EntryCount) &&
            (forall e :: e in r ==> e in counts && Lookup(counts, e.key) == e.count) &&
            (forall e, t :: e in counts && e !in r && t in r ==> e.count <= t.count) &&
            (forall c :: Filter(r, KeyIs(EntryCount, c)) <= Filter(counts, KeyIs(EntryCount, c)))
  {
    var r := TopCities(counts);
    SortDescCorrect(counts, EntryCount);
    var s := SortDesc(counts, EntryCount);
    var k := if 5 < |s| then 5 else |s|;
    assert r == s[..k];
    assert SortedDesc(r, EntryCount);
    forall e | e in r ensures e in counts && Lookup(counts, e.key) == e.count {
      assert e in multiset(s);
      var i :| 0 <= i < |counts| && counts[i] == e;
      LookupEntry(counts, i);
    }
    forall e, t | e in counts && e !in r && t in r ensures e.count <= t.count {
      TopPrefix(counts, EntryCount, 5, e, t);
    }
    forall c ensures Filter(r, KeyIs(EntryCount, c)) <= Filter(counts, KeyIs(EntryCount, c)) {
      TopStable(counts, EntryCount, 5, c);
    }
  }

  /** The bucket a trip falls in: the month of its creation date, or "Unknown" when it has none. */
  datatype MonthKey = KnownMonth(month: int) | UnknownMonth

  function MonthOf(t: Trip, monthOf: int -> int): MonthKey
  {
    match t.createdDate
    case Some(d) => KnownMonth(monthOf(d))
    case None => UnknownMonth
  }

  function MonthKeys(trips: seq<Trip>, monthOf: int -> int): (r: seq<MonthKey>)
    ensures |r| == |trips| && forall i :: 0 <= i < |trips| ==> r[i] == MonthOf(trips[i], monthOf)
  {
    seq(|trips|, i requires 0 <= i < |trips| => MonthOf(trips[i], monthOf))
  }

  /** `monthlyTrips`: add 1 to each trip's month bucket, in list order. */
  method CountMonths(trips: seq<Trip>, monthOf: int -> int) returns (buckets: seq<Entry<MonthKey>>)
    ensures buckets == Count(MonthKeys(trips, monthOf))
  {
    buckets := [];
    for i := 0 to |trips|
      invariant buckets == Count(MonthKeys(trips[..i], monthOf))
    {
      assert MonthKeys(trips[..i + 1], monthOf) == MonthKeys(trips[..i], monthOf) + [MonthOf(trips[i], monthOf)];
      CountSnoc(MonthKeys(trips[..i], monthOf), MonthOf(trips[i], monthOf));
      buckets := Bump(buckets, MonthOf(trips[i], monthOf));
    }
    assert trips[..|trips|] == trips;
  }

  /**
   * The month buckets: one per distinct month in first-occurrence order, each holding the
   * number of trips created in that month (or without a date), adding up to the number of trips.
   */
  lemma MonthCountsCorrect(trips: seq<Trip>, monthOf: int -> int)
    ensures var buckets := Count(MonthKeys(trips, monthOf));
            DistinctKeys(buckets) && Positive(buckets) &&
            Keys(buckets) == FirstOccurrences(MonthKeys(trips, monthOf)) &&
            (forall m :: Lookup(buckets, m) == multiset(MonthKeys(trips, monthOf))[m]) &&
            Total(buckets) == |trips|
  {
    CountCorrect(MonthKeys(trips, monthOf));
  }

  /** `monthlyData`: `.slice(-6)`, the last six buckets (all of them when there are fewer). */
  function MonthlyData(buckets: seq<Entry<MonthKey>>): (r: seq<Entry<MonthKey>>)
    ensures |r| == if |buckets| < 6 then |buckets| else 6
    ensures forall i :: 0 <= i < |r| ==> r[i] == buckets[|buckets| - |r| + i]
  {
    if |buckets| <= 6 then buckets else buckets[|buckets| - 6..]
  }

  /**
   * The chart shows the months that first occur last in the trip list (the oldest months, since
   * trips arrive newest first), still in first-occurrence order.
   */
  lemma MonthlyDataKeys(trips: seq<Trip>, monthOf: int -> int)
    ensures var months := FirstOccurrences(MonthKeys(trips, monthOf));
            var shown := MonthlyData(Count(MonthKeys(trips, monthOf)));
            |shown| <= |months| && Keys(shown) == months[|months| - |shown|..]
  {
    CountCorrect(MonthKeys(trips, monthOf));
    var buckets := Count(MonthKeys(trips, monthOf));
    var shown := MonthlyData(buckets);
    KeysSuffix(buckets, |buckets| - |shown|);
    assert shown == buckets[|buckets| - |shown|..];
  }

  lemma {:induction false} KeysSuffix<K>(t: seq<Entry<K>>, k: nat)
    requires k <= |t|
    ensures Keys(t[k..]) == Keys(t)[k..]
  {
    if k > 0 {
      assert t[k..] == t[1..][k - 1..];
      KeysSuffix(t[1..], k - 1);
    }
  }
}
