/**
 * The read-only itinerary page: the budget and activity totals, the per-day budget
 * series, the average daily cost, the destination count, and sharing the trip.
 */
module ItineraryView {
  import opened Wrappers
  import opened Lists
  import opened Text
  import opened Records
  import opened Store

  /**
   * The two totals as the page computes them, `reduce` from 0 over the days, are the sums of
   * the day budgets and of the activity-list lengths, with a missing value counted as 0.
   */
  lemma TotalsAreReduce(days: seq<DayPlan>)
    ensures FoldSum(0, days, BudgetOf) == TotalBudget(days)
    ensures FoldSum(0, days, ActivityCountOf) == TotalActivities(days)
    ensures (forall i :: 0 <= i < |days| ==> days[i].budget.None?) ==> TotalBudget(days) == 0
  {
    FoldSumIsSum(0, days, BudgetOf);
    FoldSumIsSum(0, days, ActivityCountOf);
    if forall i :: 0 <= i < |days| ==> days[i].budget.None? {
      SumZero(days, BudgetOf);
    }
  }

  /** One bar of the per-day budget chart. */
  datatype ChartPoint = ChartPoint(name: string, budget: int)

  function PointBudget(p: ChartPoint): int
  {
    p.budget
  }

  /**
   * The chart label exactly as the page builds it: the template literal holds `₹{`, not
   * `${`, so no day number is substituted and every label is this same text.
   */
  const DayLabelAsWritten: string := "Day \U{20B9}{day.day_number}"

  /** `itinerary.map(day => ({ name: ..., budget: day.budget || 0 }))`. */
  function BudgetByDay(days: seq<DayPlan>): (r: seq<ChartPoint>)
    ensures |r| == |days|
    ensures forall i :: 0 <= i < |days| ==> r[i] == ChartPoint(DayLabelAsWritten, BudgetOf(days[i]))
  {
    seq(|days|, i requires 0 <= i < |days| => ChartPoint(DayLabelAsWritten, BudgetOf(days[i])))
  }

  /** The chart's bars add up to the total budget shown beside it. */
  lemma {:induction false} BudgetSeriesTotal(days: seq<DayPlan>)
    ensures Sum(BudgetByDay(days), PointBudget) == TotalBudget(days)
  {
    if days != [] {
      assert BudgetByDay(days)[1..] == BudgetByDay(days[1..]);
      BudgetSeriesTotal(days[1..]);
    }
  }

  /** As written, no two bars can be told apart by their label, whatever the day numbers. */
  lemma AsWrittenLabelsCollide(days: seq<DayPlan>, i: nat, j: nat)
    requires i < j < |days| && days[i].dayNumber != days[j].dayNumber
    ensures BudgetByDay(days)[i].name == BudgetByDay(days)[j].name
    ensures BudgetByDay(days)[i].name == DayLabelAsWritten
  {
  }

  /** The label the template evidently means: `Day ${day.day_number}`. */
  function DayLabel(n: int): string
  {
    "Day " + IntToString(n)
  }

  /** The per-day series with the intended label. */
  function BudgetByDayIntended(days: seq<DayPlan>): (r: seq<ChartPoint>)
    ensures |r| == |days|
    ensures forall i :: 0 <= i < |days| ==> r[i].budget == BudgetOf(days[i]) && r[i].budget == BudgetByDay(days)[i].budget
  {
    seq(|days|, i requires 0 <= i < |days| => ChartPoint(DayLabel(days[i].dayNumber), BudgetOf(days[i])))
  }

  /** With the intended label, days with different numbers get different labels. */
  lemma IntendedLabelsDistinct(days: seq<DayPlan>, i: nat, j: nat)
    requires i < |days| && j < |days| && days[i].dayNumber != days[j].dayNumber
    ensures BudgetByDayIntended(days)[i].name != BudgetByDayIntended(days)[j].name
  {
    var a, b := days[i].dayNumber, days[j].dayNumber;
    if DayLabel(a) == DayLabel(b) {
      assert DayLabel(a)[4..] == IntToString(a) && DayLabel(b)[4..] == IntToString(b);
      IntToStringInjective(a, b);
    }
  }

  /** `Math.round(x / n)` for `n > 0`: the nearest integer, halves rounded up. */
  function RoundDiv(x: int, n: int): (r: int)
    requires n > 0
    ensures 2 * n * r - n <= 2 * x < 2 * n * r + n
  {
    var m := 2 * n;
    var q := (2 * x + n) / m;
    assert 2 * x + n == m * q + (2 * x + n) % m;
    q
  }

  /** The average daily cost card: 0 for an empty itinerary, else the rounded mean budget. */
  function AverageDailyCost(days: seq<DayPlan>): (r: int)
    ensures |days| == 0 ==> r == 0
    ensures |days| > 0 ==> 2 * |days| * r - |days| <= 2 * TotalBudget(days) < 2 * |days| * r + |days|
  {
    if |days| == 0 then 0 else RoundDiv(TotalBudget(days), |days|)
  }

  function CityNames(days: seq<DayPlan>): (r: seq<string>)
    ensures |r| == |days| && forall i :: 0 <= i < |days| ==> r[i] == days[i].cityName
  {
    seq(|days|, i requires 0 <= i < |days| => days[i].cityName)
  }

  function NonEmpty(s: string): bool
  {
    s != ""
  }

  /** `itinerary.map(d => d.city_name).filter(Boolean)`: the chosen cities in day order, repeats kept. */
  function NamedCities(days: seq<DayPlan>): (r: seq<string>)
    ensures IsSublist(r, CityNames(days)) && |r| <= |days|
    ensures forall i :: 0 <= i < |r| ==> r[i] != ""
    ensures forall i :: 0 <= i < |days| && days[i].cityName != "" ==> days[i].cityName in r
    ensures forall c :: c != "" ==> multiset(r)[c] == multiset(CityNames(days))[c]
    ensures |r| == |set i | 0 <= i < |days| && days[i].cityName != ""|
  {
    var names := CityNames(days);
    var r := Filter(names, NonEmpty);
    FilterCounts(names, NonEmpty);
    assert forall c :: c != "" && c !in names ==> c !in r;
    FilterLength(names, NonEmpty);
    assert Passing(names, NonEmpty) == set i | 0 <= i < |days| && days[i].cityName != "";
    r
  }

  /** The destinations badge: `new Set(...).size` over the chosen cities. */
  function DestinationCount(days: seq<DayPlan>): (r: nat)
    ensures r <= |NamedCities(days)| <= |days|
    ensures r == 0 <==> forall i :: 0 <= i < |days| ==> days[i].cityName == ""
  {
    ElementsAtMostLength(NamedCities(days));
    |set c | c in NamedCities(days)|
  }

  /** The share button is shown unless the trip has loaded and is already public. */
  predicate ShareOffered(trip: Option<Trip>)
  {
    trip.None? || !trip.value.isPublic
  }

  /** The post the share mutation creates. */
  function ShareDraft(tripId: string, trip: Trip, user: User, days: seq<DayPlan>): PostDraft
  {
    PostDraft(tripId, DisplayName(user), user.email, trip.name, trip.description, trip.coverImage, NamedCities(days))
  }

  /** The share mutation: mark the trip public, then create the post. */
  function ShareOps(tripId: string, trip: Trip, user: User, days: seq<DayPlan>): seq<StoreOp>
  {
    [SetTripPublic(tripId), CreatePost(ShareDraft(tripId, trip, user, days))]
  }

  /**
   * Sharing a stored trip makes it public (so the share button disappears) and appends one
   * post that copies the trip's title, description and cover image, names the author or
   * "Traveler", and lists the chosen cities in day order; the day records are untouched.
   */
  lemma ShareEffect(st: StoreState, tripId: string, user: User, days: seq<DayPlan>)
    requires tripId in st.trips
    ensures var trip := st.trips[tripId];
            var st' := ApplyAll(st, ShareOps(tripId, trip, user, days));
            st'.trips == st.trips[tripId := trip.(isPublic := true)] &&
            !ShareOffered(Some(st'.trips[tripId])) &&
            st'.posts == st.posts + [Post(st.nextId, tripId, Some(DisplayName(user)), user.email, trip.name,
                                          trip.description, trip.coverImage, Some(NamedCities(days)), None, st.now)] &&
            st'.days == st.days
  {
    var trip := st.trips[tripId];
    var ops := ShareOps(tripId, trip, user, days);
    var st1 := Apply(st, ops[0]);
    assert ops[1..] == [ops[1]] && ops[1..][1..] == [];
    assert ApplyAll(st, ops) == ApplyAll(st1, [ops[1]]) == ApplyAll(Apply(st1, ops[1]), []);
  }

  /** Shared destinations are not de-duplicated: a city visited on two days is listed twice. */
  lemma SharedDestinationsKeepRepeats()
    ensures var paris := DayPlan(1, 0, "c1", "Paris", None, None, "");
            var rome := DayPlan(2, 1, "c2", "Rome", None, None, "");
            var free := DayPlan(3, 2, "", "", None, None, "");
            var days := [paris, paris.(dayNumber := 2), rome.(dayNumber := 3), free];
            NamedCities(days) == ["Paris", "Paris", "Rome"] && DestinationCount(days) == 2
  {
    var paris := DayPlan(1, 0, "c1", "Paris", None, None, "");
    var rome := DayPlan(2, 1, "c2", "Rome", None, None, "");
    var free := DayPlan(3, 2, "", "", None, None, "");
    var days := [paris, paris.(dayNumber := 2), rome.(dayNumber := 3), free];
    var names := CityNames(days);
    assert names == ["Paris", "Paris", "Rome", ""];
    assert names[1..] == ["Paris", "Rome", ""] && names[1..][1..] == ["Rome", ""] && names[1..][1..][1..] == [""];
    assert Filter([""], NonEmpty) == [];
    assert Filter(["Rome", ""], NonEmpty) == ["Rome"];
    assert Filter(["Paris", "Rome", ""], NonEmpty) == ["Paris", "Rome"];
    assert Filter(names, NonEmpty) == ["Paris", "Paris", "Rome"];
    assert NamedCities(days) == ["Paris", "Paris", "Rome"];
    assert (set c | c in ["Paris", "Paris", "Rome"]) == {"Paris", "Rome"};
  }
}
