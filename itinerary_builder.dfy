/**
 * The itinerary editor: expanding a trip's dates into day plans, the per-day edits
 * (set a field, add or remove an activity, append a day) and the replace-all save.
 */
module ItineraryBuilder {
  import opened Wrappers
  import opened Lists
  import opened Records
  import opened Store

  // ---------------------------------------------------------------------------
  // Day generation

  /** A day with no city, no activities, a zero budget and no notes. */
  function BlankDay(n: int, date: int): DayPlan
  {
    DayPlan(n, date, "", "", Some([]), Some(0), "")
  }

  /**
   * `Array.from({ length: differenceInDays(end, start) + 1 }, ...)`: one blank day per date
   * from `start` to `end`; a negative length gives no days.
   */
  function GenerateDays(start: int, end: int): seq<DayPlan>
  {
    var n := end - start + 1;
    if n <= 0 then [] else seq(n, i requires 0 <= i < n => BlankDay(i + 1, start + i))
  }

  /** Days are numbered 1, 2, ... and their dates follow each other one day apart. */
  ghost predicate Contiguous(days: seq<DayPlan>)
  {
    && (forall i :: 0 <= i < |days| ==> days[i].dayNumber == i + 1)
    && (forall i :: 0 < i < |days| ==> days[i].date == days[i - 1].date + 1)
  }

  /** The shape of a generated itinerary. */
  lemma GenerateDaysShape(start: int, end: int)
    ensures |GenerateDays(start, end)| == if end < start then 0 else end - start + 1
    ensures Contiguous(GenerateDays(start, end))
    ensures forall i :: 0 <= i < |GenerateDays(start, end)| ==>
              var d := GenerateDays(start, end)[i];
              d.date == start + i && d.cityId == "" && d.cityName == "" &&
              EntriesOf(d) == [] && BudgetOf(d) == 0 && d.notes == ""
  {
    var r := GenerateDays(start, end);
    if end - start + 1 > 0 {
      assert forall i :: 0 <= i < |r| ==> r[i] == BlankDay(i + 1, start + i);
    }
  }

  /** A generated itinerary has no budget and no activities in total. */
  lemma GenerateDaysTotals(start: int, end: int)
    ensures TotalBudget(GenerateDays(start, end)) == 0
    ensures TotalActivities(GenerateDays(start, end)) == 0
  {
    var days := GenerateDays(start, end);
    GenerateDaysShape(start, end);
    SumZero(days, BudgetOf);
    SumZero(days, ActivityCountOf);
  }

  /** The day plans of the stored records, in the order the store returned them. */
  function StoredPlans(stored: seq<StoredDay>): (r: seq<DayPlan>)
    ensures |r| == |stored| && forall i :: 0 <= i < |stored| ==> r[i] == stored[i].day
  {
    seq(|stored|, i requires 0 <= i < |stored| => stored[i].day)
  }

  /**
   * The load effect: generate when the trip has arrived and nothing is stored, use the stored
   * days verbatim when there are some, and otherwise leave the editor's days alone.
   */
  function LoadedDays(trip: Option<Trip>, stored: seq<StoredDay>, current: seq<DayPlan>): (r: seq<DayPlan>)
    ensures |stored| > 0 ==> r == StoredPlans(stored)
    ensures trip.Some? && stored == [] ==> r == GenerateDays(trip.value.startDate, trip.value.endDate)
    ensures trip.None? && stored == [] ==> r == current
  {
    if trip.Some? && |stored| == 0 then GenerateDays(trip.value.startDate, trip.value.endDate)
    else if |stored| > 0 then StoredPlans(stored)
    else current
  }

  // ---------------------------------------------------------------------------
  // Edits of one day

  /** The field and value of an `updateDay(dayIndex, field, value)` call. */
  datatype DayField =
    | DayNumberField(n: int)
    | DateField(date: int)
    | CityIdField(id: string)
    | CityNameField(name: string)
    | BudgetField(amount: int)
    | NotesField(text: string)

  /** `cities.find(c => c.id === id)?.name || ""`. */
  function CityNameFor(cities: seq<City>, id: string): (r: string)
    ensures (forall i :: 0 <= i < |cities| ==> cities[i].id != id) ==> r == ""
    ensures forall i :: 0 <= i < |cities| && cities[i].id == id && (forall j :: 0 <= j < i ==> cities[j].id != id) ==>
              r == cities[i].name
  {
    match FindCity(cities, id)
    case Some(c) => c.name
    case None => ""
  }

  /** `{ ...day, [field]: value }`, then the city-name refresh when the field is `city_id`. */
  function UpdatedDay(d: DayPlan, f: DayField, cities: seq<City>): (r: DayPlan)
    ensures r.activities == d.activities
    ensures r.dayNumber == if f.DayNumberField? then f.n else d.dayNumber
    ensures r.date == if f.DateField? then f.date else d.date
    ensures r.cityId == if f.CityIdField? then f.id else d.cityId
    ensures r.cityName == match f
                          case CityIdField(id) => CityNameFor(cities, id)
                          case CityNameField(name) => name
                          case _ => d.cityName
    ensures r.budget == if f.BudgetField? then Some(f.amount) else d.budget
    ensures r.notes == if f.NotesField? then f.text else d.notes
  {
    match f
    case DayNumberField(n) => d.(dayNumber := n)
    case DateField(date) => d.(date := date)
    case CityIdField(id) => d.(cityId := id, cityName := CityNameFor(cities, id))
    case CityNameField(name) => d.(cityName := name)
    case BudgetField(amount) => d.(budget := Some(amount))
    case NotesField(text) => d.(notes := text)
  }

  /** The entry `addActivityToDay` builds from a catalogue activity. */
  function NewEntry(a: Activity): ActivityEntry
  {
    ActivityEntry(a.id, a.name, "", Some(ActivityCost(a)), "")
  }

  /** The day after appending `a`: one more entry at the end and the running budget raised by its cost. */
  function WithActivity(d: DayPlan, a: Activity): (r: DayPlan)
    ensures EntriesOf(r) == EntriesOf(d) + [NewEntry(a)]
    ensures BudgetOf(r) == BudgetOf(d) + ActivityCost(a)
    ensures r.(activities := d.activities, budget := d.budget) == d
  {
    d.(activities := Some(EntriesOf(d) + [NewEntry(a)]), budget := Some(BudgetOf(d) + ActivityCost(a)))
  }

  /**
   * The day after removing entry `k`: the other entries in their order and the running budget
   * lowered by the removed cost, with no clamping at zero. The list must exist and `k` be in
   * range: otherwise the source dereferences `undefined`.
   */
  function WithoutActivity(d: DayPlan, k: nat): (r: DayPlan)
    requires d.activities.Some? && k < |d.activities.value|
    ensures |EntriesOf(r)| == |EntriesOf(d)| - 1
    ensures forall i :: 0 <= i < k ==> EntriesOf(r)[i] == EntriesOf(d)[i]
    ensures forall i :: k <= i < |EntriesOf(r)| ==> EntriesOf(r)[i] == EntriesOf(d)[i + 1]
    ensures BudgetOf(r) == BudgetOf(d) - EntryCost(EntriesOf(d)[k])
    ensures r.(activities := d.activities, budget := d.budget) == d
  {
    var es := d.activities.value;
    d.(activities := Some(es[..k] + es[k + 1..]), budget := Some(BudgetOf(d) - EntryCost(es[k])))
  }

  /** Adding an activity and then removing that last entry restores the entries and the budget. */
  lemma AddThenRemove(d: DayPlan, a: Activity)
    ensures WithActivity(d, a).activities.Some?
    ensures var r := WithoutActivity(WithActivity(d, a), |EntriesOf(d)|);
            EntriesOf(r) == EntriesOf(d) && BudgetOf(r) == BudgetOf(d) &&
            r.(activities := d.activities, budget := d.budget) == d
  {
    var r := WithoutActivity(WithActivity(d, a), |EntriesOf(d)|);
    assert EntriesOf(r) == EntriesOf(d);
  }

  /** A day whose budget is the sum of its entry costs stays so under adding and removing. */
  lemma BudgetTracksEntries(d: DayPlan, a: Activity, k: nat)
    requires BudgetOf(d) == EntriesCost(EntriesOf(d))
    ensures BudgetOf(WithActivity(d, a)) == EntriesCost(EntriesOf(WithActivity(d, a)))
    ensures d.activities.Some? && k < |d.activities.value| ==>
              BudgetOf(WithoutActivity(d, k)) == EntriesCost(EntriesOf(WithoutActivity(d, k)))
  {
    SumConcat(EntriesOf(d), [NewEntry(a)], EntryCost);
    if d.activities.Some? && k < |d.activities.value| {
      var es := d.activities.value;
      SumRemove(es, k, EntryCost);
      assert EntriesOf(WithoutActivity(d, k)) == es[..k] + es[k + 1..];
    }
  }

  /** Removal does not clamp: a day whose budget was lowered by hand can go negative. */
  lemma RemovalCanGoNegative()
    ensures var e := ActivityEntry("a1", "Museum", "", Some(40), "");
            var d := DayPlan(1, 0, "", "", Some([e]), Some(0), "");
            BudgetOf(WithoutActivity(d, 0)) == -40
  {
  }

  /** The day `addNewSection` appends: numbered after the last and dated the day after it, or `today`. */
  function NextDay(days: seq<DayPlan>, today: int): DayPlan
  {
    BlankDay(|days| + 1, if days == [] then today else days[|days| - 1].date + 1)
  }

  /** Appending a section keeps a contiguous itinerary contiguous. */
  lemma NextDayKeepsContiguous(days: seq<DayPlan>, today: int)
    requires Contiguous(days)
    ensures Contiguous(days + [NextDay(days, today)])
  {
  }

  // ---------------------------------------------------------------------------
  // Effect of the edits on the itinerary totals

  /** Adding an activity to one day raises the trip total by its cost and the activity count by one. */
  lemma AddActivityTotals(days: seq<DayPlan>, i: nat, a: Activity)
    requires i < |days|
    ensures TotalBudget(days[i := WithActivity(days[i], a)]) == TotalBudget(days) + ActivityCost(a)
    ensures TotalActivities(days[i := WithActivity(days[i], a)]) == TotalActivities(days) + 1
  {
    SumUpdate(days, i, WithActivity(days[i], a), BudgetOf);
    SumUpdate(days, i, WithActivity(days[i], a), ActivityCountOf);
  }

  /** Removing entry `k` of one day lowers the trip total by its cost and the activity count by one. */
  lemma RemoveActivityTotals(days: seq<DayPlan>, i: nat, k: nat)
    requires i < |days| && days[i].activities.Some? && k < |days[i].activities.value|
    ensures TotalBudget(days[i := WithoutActivity(days[i], k)]) ==
            TotalBudget(days) - EntryCost(days[i].activities.value[k])
    ensures TotalActivities(days[i := WithoutActivity(days[i], k)]) == TotalActivities(days) - 1
  {
    SumUpdate(days, i, WithoutActivity(days[i], k), BudgetOf);
    SumUpdate(days, i, WithoutActivity(days[i], k), ActivityCountOf);
  }

  // ---------------------------------------------------------------------------
  // Replace-all save

  /** One delete per stored record, in order. */
  function DeleteOps(stored: seq<StoredDay>): (r: seq<StoreOp>)
    ensures |r| == |stored| && forall i :: 0 <= i < |stored| ==> r[i] == DeleteDay(stored[i].id)
  {
    if stored == [] then [] else DeleteOps(stored[..|stored| - 1]) + [DeleteDay(stored[|stored| - 1].id)]
  }

  /** One create per current day, in order, each tagged with the trip. */
  function CreateOps(days: seq<DayPlan>, tripId: string): (r: seq<StoreOp>)
    ensures |r| == |days| && forall i :: 0 <= i < |days| ==> r[i] == CreateDay(tripId, days[i])
  {
    if days == [] then [] else CreateOps(days[..|days| - 1], tripId) + [CreateDay(tripId, days[|days| - 1])]
  }

  /** The whole save: every delete, then every create, then the trip total. */
  function SaveOps(stored: seq<StoredDay>, days: seq<DayPlan>, tripId: string): seq<StoreOp>
  {
    DeleteOps(stored) + CreateOps(days, tripId) + [SetTripTotal(tripId, TotalBudget(days))]
  }

  lemma {:induction false} DeletesEffect(st: StoreState, stored: seq<StoredDay>)
    ensures var st' := ApplyAll(st, DeleteOps(stored));
            st'.trips == st.trips && st'.posts == st.posts && st'.nextId == st.nextId &&
            forall x :: x in st'.days <==> x in st.days && forall j :: 0 <= j < |stored| ==> x.id != stored[j].id
  {
    if stored != [] {
      var init := stored[..|stored| - 1];
      DeletesEffect(st, init);
      ApplyAllConcat(st, DeleteOps(init), [DeleteDay(stored[|stored| - 1].id)]);
    }
  }

  lemma {:induction false} CreatesEffect(st: StoreState, days: seq<DayPlan>, tripId: string)
    ensures var st' := ApplyAll(st, CreateOps(days, tripId));
            st'.trips == st.trips && st'.posts == st.posts && st.days <= st'.days &&
            TripDays(st'.days, tripId) == TripDays(st.days, tripId) + days
  {
    if days != [] {
      var init := days[..|days| - 1];
      CreatesEffect(st, init, tripId);
      ApplyAllConcat(st, CreateOps(init, tripId), [CreateDay(tripId, days[|days| - 1])]);
      var mid := ApplyAll(st, CreateOps(init, tripId));
      TripDaysAppend(mid.days, StoredDay(mid.nextId, tripId, days[|days| - 1]), tripId);
      assert days == init + [days[|days| - 1]];
    } else {
      assert TripDays(st.days, tripId) + days == TripDays(st.days, tripId);
    }
  }

  /**
   * When the records read for the trip include every record the store holds for it, the save
   * leaves the store holding exactly the current days for the trip, in order, and sets the
   * trip's total to the sum of their budgets; every other field of the trip, every other trip
   * and the posts are unchanged.
   */
  lemma SaveReplacesDays(st: StoreState, stored: seq<StoredDay>, days: seq<DayPlan>, tripId: string)
    requires forall x :: x in st.days && x.tripId == tripId ==> x in stored
    ensures var st' := ApplyAll(st, SaveOps(stored, days, tripId));
            TripDays(st'.days, tripId) == days &&
            st'.trips == (if tripId in st.trips
                          then st.trips[tripId := st.trips[tripId].(totalBudget := Some(TotalBudget(days)))]
                          else st.trips) &&
            st'.posts == st.posts
  {
    var dels, creates := DeleteOps(stored), CreateOps(days, tripId);
    var fin := [SetTripTotal(tripId, TotalBudget(days))];
    ApplyAllConcat(st, dels + creates, fin);
    ApplyAllConcat(st, dels, creates);
    DeletesEffect(st, stored);
    var st1 := ApplyAll(st, dels);
    assert forall x :: x in st1.days ==> x.tripId != tripId by {
      forall x | x in st1.days ensures x.tripId != tripId {
        assert forall j :: 0 <= j < |stored| ==> x != stored[j];
      }
    }
    TripRecordsNone(st1.days, tripId);
    CreatesEffect(st1, days, tripId);
    assert SaveOps(stored, days, tripId) == (dels + creates) + fin;
  }

  // ---------------------------------------------------------------------------
  // The editor's state

  /** The editor page: the days being edited and what the store has returned for the trip. */
  class Builder {
    const tripId: string
    var trip: Option<Trip>
    var cities: seq<City>
    var stored: seq<StoredDay>
    var days: seq<DayPlan>

    constructor (tripId: string)
      ensures this.tripId == tripId && trip == None && cities == [] && stored == [] && days == []
    {
      this.tripId := tripId;
      trip := None;
      cities := [];
      stored := [];
      days := [];
    }

    /** New query results arrive; the load effect runs. */
    method Load(trip: Option<Trip>, cities: seq<City>, stored: seq<StoredDay>)
      modifies this
      ensures this.trip == trip && this.cities == cities && this.stored == stored
      ensures days == LoadedDays(trip, stored, old(days))
    {
      this.trip := trip;
      this.cities := cities;
      this.stored := stored;
      if trip.Some? && |stored| == 0 {
        days := GenerateDays(trip.value.startDate, trip.value.endDate);
      } else if |stored| > 0 {
        days := StoredPlans(stored);
      }
    }

    /** `updateDay`: only day `dayIndex` changes, and only as `UpdatedDay` says. */
    method UpdateDay(dayIndex: nat, f: DayField)
      requires dayIndex < |days|
      modifies this
      ensures days == old(days)[dayIndex := UpdatedDay(old(days)[dayIndex], f, cities)]
      ensures trip == old(trip) && cities == old(cities) && stored == old(stored)
    {
      var updated := days;
      updated := updated[dayIndex := UpdatedDay(updated[dayIndex], f, cities)];
      days := updated;
    }

    /** `addActivityToDay`. */
    method AddActivityToDay(dayIndex: nat, a: Activity)
      requires dayIndex < |days|
      modifies this
      ensures days == old(days)[dayIndex := WithActivity(old(days)[dayIndex], a)]
      ensures TotalBudget(days) == old(TotalBudget(days)) + ActivityCost(a)
      ensures trip == old(trip) && cities == old(cities) && stored == old(stored)
    {
      AddActivityTotals(days, dayIndex, a);
      var day := days[dayIndex];
      var entries := EntriesOf(day);
      day := day.(activities := Some(entries + [NewEntry(a)]));
      day := day.(budget := Some(BudgetOf(days[dayIndex]) + ActivityCost(a)));
      days := days[dayIndex := day];
    }

    /** `removeActivityFromDay`. */
    method RemoveActivityFromDay(dayIndex: nat, k: nat)
      requires dayIndex < |days| && days[dayIndex].activities.Some? && k < |days[dayIndex].activities.value|
      modifies this
      ensures days == old(days)[dayIndex := WithoutActivity(old(days)[dayIndex], k)]
      ensures TotalBudget(days) == old(TotalBudget(days)) - EntryCost(old(days)[dayIndex].activities.value[k])
      ensures trip == old(trip) && cities == old(cities) && stored == old(stored)
    {
      RemoveActivityTotals(days, dayIndex, k);
      var day := days[dayIndex];
      var entries := day.activities.value;
      var removed := entries[k];
      day := day.(activities := Some(entries[..k] + entries[k + 1..]));
      day := day.(budget := Some(BudgetOf(days[dayIndex]) - EntryCost(removed)));
      days := days[dayIndex := day];
    }

    /** `addNewSection`; `today` stands for `new Date()`. */
    method AddNewSection(today: int)
      modifies this
      ensures days == old(days) + [NextDay(old(days), today)]
      ensures Contiguous(old(days)) ==> Contiguous(days)
      ensures trip == old(trip) && cities == old(cities) && stored == old(stored)
    {
      var date := if |days| == 0 then today else days[|days| - 1].date + 1;
      var newDay := BlankDay(|days| + 1, date);
      days := days + [newDay];
    }

    /** The save mutation: the store operations it issues, in order. */
    method Save() returns (ops: seq<StoreOp>)
      ensures ops == SaveOps(stored, days, tripId)
    {
      ops := [];
      for i := 0 to |stored|
        invariant ops == DeleteOps(stored[..i])
      {
        assert stored[..i + 1][..i] == stored[..i];
        ops := ops + [DeleteDay(stored[i].id)];
      }
      assert stored[..|stored|] == stored;
      var deletes := ops;
      for i := 0 to |days|
        invariant ops == deletes + CreateOps(days[..i], tripId)
      {
        assert days[..i + 1][..i] == days[..i];
        ops := ops + [CreateDay(tripId, days[i])];
      }
      assert days[..|days|] == days;
      ops := ops + [SetTripTotal(tripId, TotalBudget(days))];
    }
  }
}
