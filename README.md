# Travel planner core, modelled in Dafny

This project models the logic of a React travel planner. In the app, travellers:

- create trips and lay each trip out day by day;
- attach catalogue activities to days, with a running budget per day;
- browse cities and activities;
- share finished itineraries with a community board, where posts can be searched, ordered and liked.

An admin dashboard aggregates all trips.

Almost all of the app is markup and remote-store calls. What is modelled here is the logic inside its event handlers and derived values, stated over plain records: trips, day plans, activity entries, cities, users and posts.

- `Records`: the records, with every optional field an `Option`. The pages' `x || 0` / `x || []` fallbacks are `GetOr`.
- `Text`: ASCII `toLowerCase` / `toUpperCase`, `includes` as contiguous occurrence, and decimal rendering of integers.
- `Lists`: `filter` (an order-preserving sublist), sums and `reduce`.
- `Sorting`: `sort` with a `key(b) - key(a)` comparator, which is a stable descending sort, and `.slice(0, n)`.
- `Tally`: the `counts[k] = (counts[k] || 0) + 1` dictionaries, as insertion-ordered association lists.
- `Store`: the remote store reduced to the operations the save, share and like actions issue, with an abstract state that gives those operations a meaning.
- `ItineraryBuilder`: the itinerary editor.
  - The load effect, which generates day plans from the trip's dates.
  - The per-day edits: set a field, add or remove an activity, append a day.
  - The replace-all save.
  - The editor's state is the class `Builder`. Its methods change `days` and are proved against pure day-level functions.
- `ItineraryView`: the read-only itinerary page.
  - The totals, the per-day budget series and the rounded average daily cost.
  - The distinct-destination count.
  - The share action.
- `AdminDashboard`: the status distribution and the stat cards, city counting with the top-five cut, and month bucketing with the last-six trim. The two counting loops are methods proved equal to `Tally.Count`.
- `Community`, `MyTrips`, `ActivitySearch`, `CitySearch`, `Profile`, `CityCard`: the list filters and sorts of those pages, the like action, the badges and the profile defaults.

Dates are whole-day ordinals. "Today" and the month of a creation date (`monthOf`) are parameters. Money is an integer. `Math.round(x / n)` is the integer nearest to `x / n`, with halves rounded up.

The code does not de-duplicate a shared post's destinations (`Pages/ItineraryView.jsx:58`). `ItineraryView.NamedCities` keeps every repeat of a city name, and `ItineraryView.SharedDestinationsKeepRepeats` shows a city listed twice.

## Model

| member | source | states |
|---|---|---|
| Lists.FilterCounts | Pages/Community.jsx:33 | `filter` keeps every copy of an element that passes and no copy of one that fails |
| Lists.FilterLength | Pages/AdminDashboard.jsx:93 | the length of a filtered list is the number of positions whose element passes |
| Lists.FoldSumIsSum | Pages/ItineraryView.jsx:74-75 | a `reduce` that adds `f(x)` from a starting value ends at that value plus the sum of `f` over the list |
| Sorting.SortDescCorrect | Pages/Community.jsx:38-42 | the comparator sort returns a permutation of its input, ordered by key from largest to smallest, in which elements with equal keys keep their input order |
| Sorting.SortDescConstantKey | Pages/Community.jsx:41 | a comparator that always returns 0 leaves the order unchanged |
| Sorting.TopPrefix | Pages/AdminDashboard.jsx:108-110 | after sorting and taking the first `n`, no element left out has a larger key than an element kept |
| Sorting.TopStable | Pages/AdminDashboard.jsx:108-110 | the cut keeps exactly min(`n`, length) elements, and the kept elements with any one key are a prefix, in input order, of the input's elements with that key |
| Tally.CountCorrect | Pages/AdminDashboard.jsx:99-107 | counting keys one by one gives one entry per distinct key, in first-occurrence order; each counter is the number of occurrences and never zero; the counters add up to the number of keys |
| Tally.BumpProperties | Pages/AdminDashboard.jsx:104 | one increment adds 1 to that key's counter (appending the key when new) and changes no other counter |
| Tally.LookupEntry | Pages/AdminDashboard.jsx:111 | in a dictionary without repeated keys, each entry holds the counter its key looks up |
| Records.FindCity | Pages/AdminDashboard.jsx:102 | `find` by id yields nothing exactly when no city has the id, and otherwise the first city that has it |
| Records.DisplayName | Pages/ItineraryView.jsx:53 | the author name is the full name when present and non-empty, otherwise "Traveler"; it is never empty |
| ItineraryBuilder.GenerateDaysShape | Pages/ItineraryBuilder.jsx:50-59 | generation yields end − start + 1 days, or none when the end precedes the start; day i is numbered i + 1 and dated start + i, with no city, no activities, a zero budget and no notes |
| ItineraryBuilder.GenerateDaysTotals | Pages/ItineraryBuilder.jsx:51-59 | a generated itinerary has a total budget of 0 and no activities |
| ItineraryBuilder.StoredPlans | Pages/ItineraryBuilder.jsx:62 | the stored day records are used verbatim, in the order returned |
| ItineraryBuilder.LoadedDays | Pages/ItineraryBuilder.jsx:48-64 | with stored days, those are used; with a loaded trip and no stored days, the days are generated from its dates; otherwise the editor's days are left alone |
| ItineraryBuilder.CityNameFor | Pages/ItineraryBuilder.jsx:95-98 | the refreshed city name is that of the first city with the id, or "" when no city has it |
| ItineraryBuilder.UpdatedDay | Pages/ItineraryBuilder.jsx:89-101 | only the named field changes; setting `city_id` also sets `city_name` to the matching city's name or "" |
| ItineraryBuilder.WithActivity | Pages/ItineraryBuilder.jsx:104-120 | exactly one entry `{activity_id, name, time: "", cost: cost or 0, notes: ""}` is appended after the existing ones; the budget (missing = 0) rises by that cost; nothing else changes |
| ItineraryBuilder.WithoutActivity | Pages/ItineraryBuilder.jsx:123-131 | exactly the entry at the index is removed, the others keep their order, and the budget falls by the removed cost with no clamping |
| ItineraryBuilder.AddThenRemove | Pages/ItineraryBuilder.jsx:104-131 | adding an activity and then removing that last entry restores the entries and the budget |
| ItineraryBuilder.BudgetTracksEntries | Pages/ItineraryBuilder.jsx:104-131 | a day whose budget equals the sum of its entry costs keeps that invariant under adding and removing |
| ItineraryBuilder.RemovalCanGoNegative | Pages/ItineraryBuilder.jsx:128 | removing a 40-cost entry from a day with budget 0 leaves a budget of −40 |
| ItineraryBuilder.NextDayKeepsContiguous | Pages/ItineraryBuilder.jsx:133-145 | appending a section to days numbered 1.. with consecutive dates keeps them so |
| ItineraryBuilder.AddActivityTotals | Pages/ItineraryBuilder.jsx:104-120 | adding an activity raises the trip's total budget by its cost and the activity count by one |
| ItineraryBuilder.RemoveActivityTotals | Pages/ItineraryBuilder.jsx:123-131 | removing an entry lowers the trip's total budget by its cost and the activity count by one |
| ItineraryBuilder.DeleteOps | Pages/ItineraryBuilder.jsx:69-71 | one delete per previously stored record, in order |
| ItineraryBuilder.CreateOps | Pages/ItineraryBuilder.jsx:73-78 | one create per current day, in order, each tagged with the trip id |
| ItineraryBuilder.DeletesEffect | Pages/ItineraryBuilder.jsx:69-71 | after the deletes, the store holds exactly the records whose id none of the stored records had; trips and posts are untouched |
| ItineraryBuilder.CreatesEffect | Pages/ItineraryBuilder.jsx:73-78 | after the creates, every earlier record is still there, first and in its place, and the trip's day records are the earlier ones followed by the current days, in order; trips and posts are untouched |
| ItineraryBuilder.SaveReplacesDays | Pages/ItineraryBuilder.jsx:66-82 | when the stored days read include every record for the trip, the save leaves exactly the current days for the trip, in order, and sets the trip's `total_budget` to the sum of their budgets; every other field of that trip, every other trip and the posts are unchanged |
| ItineraryBuilder.Builder.constructor | Pages/ItineraryBuilder.jsx:21 | the editor starts with no days |
| ItineraryBuilder.Builder.Load | Pages/ItineraryBuilder.jsx:48-64 | the load effect sets the days as `LoadedDays` says |
| ItineraryBuilder.Builder.UpdateDay | Pages/ItineraryBuilder.jsx:89-102 | only day `dayIndex` changes, as `UpdatedDay` says; the other days are unchanged |
| ItineraryBuilder.Builder.AddActivityToDay | Pages/ItineraryBuilder.jsx:104-121 | only day `dayIndex` changes, as `WithActivity` says, and the trip total rises by the activity's cost |
| ItineraryBuilder.Builder.RemoveActivityFromDay | Pages/ItineraryBuilder.jsx:123-131 | only day `dayIndex` changes, as `WithoutActivity` says, and the trip total falls by the removed cost |
| ItineraryBuilder.Builder.AddNewSection | Pages/ItineraryBuilder.jsx:133-145 | one day is appended, numbered one more than the number of days and dated the day after the last day (or today); existing days are unchanged and contiguity is kept |
| ItineraryBuilder.Builder.Save | Pages/ItineraryBuilder.jsx:66-82 | the save issues every delete, then every create, then the trip-total update, in that order |
| ItineraryView.TotalsAreReduce | Pages/ItineraryView.jsx:74-75 | the total budget and total activity count are the sums over the days of budget and list length, missing values counting 0 |
| ItineraryView.BudgetByDay | Pages/ItineraryView.jsx:77-80 | one chart point per day in day order, with budget = day budget or 0, and every label the same literal text |
| ItineraryView.BudgetSeriesTotal | Pages/ItineraryView.jsx:74-80 | the chart's budgets add up to the total budget |
| ItineraryView.AsWrittenLabelsCollide | Pages/ItineraryView.jsx:78 | two days with different numbers get the same chart label |
| ItineraryView.BudgetByDayIntended | Pages/ItineraryView.jsx:77-80 | the corrected series has the same budgets as the one written |
| ItineraryView.IntendedLabelsDistinct | Pages/ItineraryView.jsx:78 | with the label "Day " followed by the day number, days with different numbers get different labels |
| ItineraryView.RoundDiv | Pages/ItineraryView.jsx:169 | the result is the integer nearest to x / n, with halves rounded up |
| ItineraryView.AverageDailyCost | Pages/ItineraryView.jsx:169 | 0 for an empty itinerary, otherwise the total budget divided by the number of days, rounded to the nearest integer |
| ItineraryView.CityNames | Pages/ItineraryView.jsx:58 | one city name per day, in day order |
| ItineraryView.NamedCities | Pages/ItineraryView.jsx:58 | the non-empty city names, in day order: each non-empty name occurs as often as there are days with it, repeats kept, and the length is the number of days with a city name |
| ItineraryView.DestinationCount | Pages/ItineraryView.jsx:117 | the number of distinct named cities is at most the number of named cities; it is 0 exactly when no day has a city name |
| ItineraryView.ShareEffect | Pages/ItineraryView.jsx:47-59 | sharing makes the trip public and changes no other field of it or any other trip, so the share button is no longer offered. It appends one post with the trip's title, description and cover image, the author name or "Traveler", the user's email and the named cities in day order. Day records are untouched |
| ItineraryView.SharedDestinationsKeepRepeats | Pages/ItineraryView.jsx:58 | a city visited on two days is listed twice on the post and counted once by the destination badge |
| AdminDashboard.StatusData | Pages/AdminDashboard.jsx:92-96 | always three slices, Planning, Ongoing and Completed in that order, each holding the number of trips whose status is exactly "planning", "ongoing" or "completed" |
| AdminDashboard.StatusCountExact | Pages/AdminDashboard.jsx:93-95 | a slice's value is the number of trips, by position, whose status equals its status string |
| AdminDashboard.StatusPartition | Pages/AdminDashboard.jsx:92-96 | each trip is counted by exactly one slice, or by none when its status is something else |
| AdminDashboard.StatusDataTotal | Pages/AdminDashboard.jsx:92-96 | the slices add up to at most the number of trips, and to exactly that number if and only if every status is one of the three |
| AdminDashboard.DashboardStats | Pages/AdminDashboard.jsx:86-89 | total trips, users and shared trips are the list lengths; active trips equal the Ongoing slice |
| AdminDashboard.ResolvedIn | Pages/AdminDashboard.jsx:101-106 | one name per id that resolves to a known city; unresolved ids add nothing; each name occurs as often as ids resolve to a city of that name |
| AdminDashboard.ResolvedInOrder | Pages/AdminDashboard.jsx:101-106 | the names come in the order of the ids: the i-th name is the name of the city found for the i-th resolving id, which fixes the first-reference order of the counters |
| AdminDashboard.CountTripCities | Pages/AdminDashboard.jsx:101-106 | the inner loop adds one trip's resolved names to the counters |
| AdminDashboard.CountCities | Pages/AdminDashboard.jsx:99-107 | the nested loops build exactly the counting of all resolved names, trip by trip |
| AdminDashboard.ResolvedNamesLength | Pages/AdminDashboard.jsx:100-106 | the number of resolved references is the per-trip count summed over trips |
| AdminDashboard.CityCountsCorrect | Pages/AdminDashboard.jsx:99-107 | each city name's counter is the number of references that resolve to it, including repeats within one trip. The counters are in first-reference order and add up to the number of resolvable references |
| AdminDashboard.TopCitiesCorrect | Pages/AdminDashboard.jsx:108-111 | exactly min(5, number of counters) cities, ordered by count without increase, each carrying its own counter. No city left out has a larger count than one kept. Ties stay in counter-creation order |
| AdminDashboard.MonthKeys | Pages/AdminDashboard.jsx:116 | each trip's bucket is the month of its creation date, or Unknown when it has none |
| AdminDashboard.CountMonths | Pages/AdminDashboard.jsx:114-118 | the loop builds exactly the counting of the trips' month buckets |
| AdminDashboard.MonthCountsCorrect | Pages/AdminDashboard.jsx:114-118 | one bucket per distinct month in first-occurrence order, each holding its number of trips; the buckets add up to the number of trips |
| AdminDashboard.MonthlyData | Pages/AdminDashboard.jsx:119-121 | the last six buckets, in order (all of them when there are fewer) |
| AdminDashboard.MonthlyDataKeys | Pages/AdminDashboard.jsx:119-121 | the months shown are the last ones to first occur in the trip list, in first-occurrence order |
| Community.FilterPosts | Pages/Community.jsx:33-36 | a post is kept if and only if its lowercased title, or its author name if present, contains the lowercased query; every copy of a kept post stays; the result is an order-preserving sublist |
| Community.EmptyQueryKeepsAll | Pages/Community.jsx:33-36 | an empty query keeps every post, in order |
| Community.SortPostsCorrect | Pages/Community.jsx:38-42 | every tab shows a permutation of the filtered posts, by key from largest to smallest, with ties in filtered order; any other tab keeps the filtered order |
| Community.TrendingOrder | Pages/Community.jsx:39 | on "trending", likes (missing = 0) do not increase down the list |
| Community.RecentOrder | Pages/Community.jsx:40 | on "recent", creation dates do not increase down the list |
| Community.LikeEffect | Pages/Community.jsx:24-27 | a like sets the post's likes to its old likes (missing = 0) plus one and changes no other post |
| Community.DestinationBadges | Pages/Community.jsx:116-128 | at most three destinations are shown, the first ones; "+N more" appears exactly when there are more than three, with shown + N = total |
| MyTrips.FilterTrips | Pages/MyTrips.jsx:40-46 | the listed trips are an order-preserving sublist keeping every copy of each trip the tab lists and none of the others |
| MyTrips.UnfilteredTabs | Pages/MyTrips.jsx:40-46 | "all", and any tab other than the three status tabs, list every trip |
| MyTrips.StatusTab | Pages/MyTrips.jsx:42-44 | "ongoing", "upcoming" and "completed" list exactly the trips with status ongoing, planning and completed |
| MyTrips.StatusTabsDisjoint | Pages/MyTrips.jsx:42-44 | no trip is listed under two different status tabs |
| ActivitySearch.FilterActivities | Pages/ActivitySearch.jsx:34-40 | an activity is kept if and only if the city, name, category and budget tests all hold; the result is an order-preserving sublist |
| ActivitySearch.OnlyBudgetFilters | Pages/ActivitySearch.jsx:35-38 | with no city, an empty query and "all", exactly the activities with cost (missing = 0) within the budget are kept |
| ActivitySearch.SearchIgnoresCase | Pages/ActivitySearch.jsx:36 | an upper-cased query selects the same activities |
| ActivitySearch.RaisingBudgetKeeps | Pages/ActivitySearch.jsx:38 | raising the maximum budget never drops an activity |
| CitySearch.FilterCities | Pages/CitySearch.jsx:23-28 | a city is kept if and only if its name or country contains the query ignoring case, and the region is "all" or the city's; an order-preserving sublist |
| CitySearch.NoFilterKeepsAll | Pages/CitySearch.jsx:23-28 | an empty query with region "all" keeps every city in popularity order |
| CitySearch.NarrowingQuery | Pages/CitySearch.jsx:24-25 | a longer query containing the old one never adds a city |
| Profile.PlannedTrips | Pages/Profile.jsx:56 | exactly the trips with status planning or ongoing, every copy, in order |
| Profile.CompletedTrips | Pages/Profile.jsx:57 | exactly the completed trips, every copy, in order |
| Profile.TripListsPartition | Pages/Profile.jsx:56-57 | the two lists share no trip, hold at most all trips together, and omit every other status |
| Profile.FormDefaults | Pages/Profile.jsx:31-36 | each missing profile field starts as "" (or [] for destinations); present fields are copied |
| Profile.AvatarInitial | Pages/Profile.jsx:92 | the first character of the full name, else the upper-cased first character of the email, else nothing |
| CityCard.Spaced | Components/Common/CityCard.jsx:40 | every "_" becomes " ", length and other characters kept |
| CityCard.RegionLabelShape | Components/Common/CityCard.jsx:39-44 | a missing or empty region reads "Unknown". Otherwise the label has the region's length and no "_". Its first character is upper-cased, and the rest is the region with underscores spaced |
| CityCard.CostIconCount | Components/Common/CityCard.jsx:47 | the cost index, or 3 when it is missing or 0; no icons for a negative index |

## Left out

- Rendering, animation, charts and the UI component wrappers are presentation, and are not modelled.
- The remote store's internals, authentication and the query cache are not modelled. The store is only an abstract state for the save, share and like operations.
  - The user record that sharing reads is a parameter.
  - A deleted id removes every record with that id.
- Asynchrony is not modelled: the `isPending` gating, the non-atomic save and share with partial failure, and a failure when the shared trip does not exist. Each operation sequence is applied in full.
- React's double invocation of state updaters under StrictMode is not modelled. The page mutates the day object in place, so that would apply an edit twice.
- Aliasing between the old and the new day objects in the editor is not modelled. Days are values; the class's `days` field is replaced as a whole.
  - When the days were loaded from the store, the editor's day objects are the cached records themselves (`Pages/ItineraryBuilder.jsx:62`). Adding or removing an activity (`Pages/ItineraryBuilder.jsx:108`, `118`, `127-128`) then also changes `activities` and `budget` on those cached records.
  - `ItineraryBuilder.Builder.AddActivityToDay` and `ItineraryBuilder.Builder.RemoveActivityFromDay` keep `stored` unchanged, so they do not capture that mutation. The save reads only the records' ids, so its effect is the same either way.
- The create in the save spreads the day, including any `id` it had. The model's created record gets a fresh id and keeps the day's fields.
- `ItineraryBuilder.Builder.UpdateDay`, `AddActivityToDay` and `RemoveActivityFromDay` require an index in range. With an out-of-range day index the source writes past the array's end or dereferences `undefined`.
- `ItineraryBuilder.WithoutActivity` requires an existing list and an in-range index. Otherwise the source dereferences `undefined`.
- Calendar arithmetic, formatting and time zones are not modelled. Dates are day ordinals; `monthOf` and today are parameters. `AdminDashboard.MonthlyDataKeys` states the months shown as the last six in first-occurrence order. That these are the six oldest months, listed newer before older, depends on the store returning trips newest first, which is not modelled.
- Floating-point numbers are not modelled: money is an integer and the average is rounded over integers.
- `Object.entries` lists integer-like keys before the others. The counters are modelled in insertion order, which is right for the dashboard's city names and month labels.
- Case mapping and `includes` are ASCII-only, with no Unicode case folding.
- The admin-role gate on the dashboard (`Pages/AdminDashboard.jsx:71-81`) is access control, not aggregation.
- `ItineraryView.DestinationCount` states bounds and the zero case. It does not state that the count equals the number of distinct non-empty names, which is its definition.
- TripCard, ActivityCard and routing are lookup tables and URL wiring, and are not part of this model.

## Findings

| source | as written | input that shows it | evidently intended | confidence | as-written member | corrected member |
|---|---|---|---|---|---|---|
| Pages/ItineraryView.jsx:78 | the chart label template holds `₹{day.day_number}`, which is not a placeholder, so every label is that literal text | any itinerary with two days, numbered 1 and 2: both bars are labelled `Day ₹{day.day_number}` | `Day ${day.day_number}`: "Day 1", "Day 2", … | high, not executed | ItineraryView.AsWrittenLabelsCollide | ItineraryView.IntendedLabelsDistinct |
