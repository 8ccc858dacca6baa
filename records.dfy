/**
 * The records the pages read from and write to the store, with the optional fields the
 * code guards with `||` or `?.` as `Option`s. Identifiers the pages compare with URL
 * parameters (trip, city, activity) are strings; identifiers the store assigns to
 * itinerary-day and post records are naturals. Calendar dates are day ordinals.
 */
module Records {
  import opened Wrappers
  import opened Lists

  /** A catalogue activity. */
  datatype Activity = Activity(id: string, name: string, cityId: string, category: string, cost: Option<int>)

  /** An activity as copied into a day plan when it was added. */
  datatype ActivityEntry = ActivityEntry(activityId: string, name: string, time: string, cost: Option<int>, notes: string)

  /** One day of an itinerary. An empty `cityId` / `cityName` means no city chosen. */
  datatype DayPlan = DayPlan(
    dayNumber: int,
    date: int,
    cityId: string,
    cityName: string,
    activities: Option<seq<ActivityEntry>>,
    budget: Option<int>,
    notes: string)

  datatype City = City(id: string, name: string, country: string, region: Option<string>, costIndex: Option<int>)

  datatype Trip = Trip(
    name: string,
    description: Option<string>,
    startDate: int,
    endDate: int,
    status: string,
    coverImage: Option<string>,
    isPublic: bool,
    totalBudget: Option<int>,
    cities: Option<seq<string>>,
    createdDate: Option<int>)

  datatype User = User(
    email: Option<string>,
    fullName: Option<string>,
    avatar: Option<string>,
    bio: Option<string>,
    favoriteDestinations: Option<seq<string>>,
    travelStyle: Option<string>)

  /** The fields the sharing code sends when it creates a community post. */
  datatype PostDraft = PostDraft(
    tripId: string,
    authorName: string,
    authorEmail: Option<string>,
    title: string,
    description: Option<string>,
    coverImage: Option<string>,
    destinations: seq<string>)

  /** A stored community post. */
  datatype Post = Post(
    id: nat,
    tripId: string,
    authorName: Option<string>,
    authorEmail: Option<string>,
    title: string,
    description: Option<string>,
    coverImage: Option<string>,
    destinations: Option<seq<string>>,
    likes: Option<int>,
    createdDate: int)

  /** `day.budget || 0`. */
  function BudgetOf(d: DayPlan): int
  {
    d.budget.GetOr(0)
  }

  /** `day.activities || []`. */
  function EntriesOf(d: DayPlan): seq<ActivityEntry>
  {
    d.activities.GetOr([])
  }

  /** `day.activities?.length || 0`. */
  function ActivityCountOf(d: DayPlan): int
  {
    |EntriesOf(d)|
  }

  /** `entry.cost || 0`. */
  function EntryCost(e: ActivityEntry): int
  {
    e.cost.GetOr(0)
  }

  /** `activity.cost || 0`. */
  function ActivityCost(a: Activity): int
  {
    a.cost.GetOr(0)
  }

  /** `days.reduce((sum, day) => sum + (day.budget || 0), 0)`. */
  function TotalBudget(days: seq<DayPlan>): int
  {
    Sum(days, BudgetOf)
  }

  /** `days.reduce((sum, day) => sum + (day.activities?.length || 0), 0)`. */
  function TotalActivities(days: seq<DayPlan>): int
  {
    Sum(days, ActivityCountOf)
  }

  /** The sum of the costs of a day's entries (missing costs as 0). */
  function EntriesCost(entries: seq<ActivityEntry>): int
  {
    Sum(entries, EntryCost)
  }

  /** `cities.find(c => c.id === id)`: the first city with that id, if any. */
  function FindCity(cities: seq<City>, id: string): (r: Option<City>)
    ensures r.None? <==> forall i :: 0 <= i < |cities| ==> cities[i].id != id
    ensures r.Some? ==> exists i :: 0 <= i < |cities| && cities[i] == r.value && cities[i].id == id &&
                          forall j :: 0 <= j < i ==> cities[j].id != id
  {
    if cities == [] then None
    else if cities[0].id == id then Some(cities[0])
    else
      var r := FindCity(cities[1..], id);
      assert r.Some? ==> exists i :: 0 < i < |cities| && cities[i] == r.value && cities[i].id == id &&
                          forall j :: 0 <= j < i ==> cities[j].id != id by {
        if r.Some? {
          var i :| 0 <= i < |cities[1..]| && cities[1..][i] == r.value && cities[1..][i].id == id &&
                   forall j :: 0 <= j < i ==> cities[1..][j].id != id;
          assert forall j :: 0 <= j < i + 1 ==> cities[j].id != id by {
            forall j | 0 <= j < i + 1 ensures cities[j].id != id {
              if j > 0 { assert cities[j] == cities[1..][j - 1]; }
            }
          }
        }
      }
      r
  }

  /** `user.full_name || "Traveler"`. */
  function DisplayName(u: User): (r: string)
    ensures r != ""
    ensures u.fullName.Some? && u.fullName.value != "" ==> r == u.fullName.value
    ensures (u.fullName.None? || u.fullName.value == "") ==> r == "Traveler"
  {
    if u.fullName.Some? && u.fullName.value != "" then u.fullName.value else "Traveler"
  }
}
