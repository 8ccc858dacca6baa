/** The activity catalogue search: by city, name, category and maximum cost. */
module ActivitySearch {
  import opened Wrappers
  import opened Lists
  import opened Text
  import opened Records

  /** The filter inputs; a missing or empty `cityId` (no city in the page URL) selects every city. */
  datatype Criteria = Criteria(cityId: Option<string>, query: string, category: string, maxBudget: int)

  predicate MatchesCity(c: Criteria, a: Activity)
  {
    c.cityId.None? || c.cityId.value == "" || a.cityId == c.cityId.value
  }

  predicate MatchesName(c: Criteria, a: Activity)
  {
    Contains(Lower(a.name), Lower(c.query))
  }

  predicate MatchesCategory(c: Criteria, a: Activity)
  {
    c.category == "all" || a.category == c.category
  }

  predicate WithinBudget(c: Criteria, a: Activity)
  {
    a.cost.GetOr(0) <= c.maxBudget
  }

  function Selects(c: Criteria): Activity -> bool
  {
    (a: Activity) => MatchesCity(c, a) && MatchesName(c, a) && MatchesCategory(c, a) && WithinBudget(c, a)
  }

  /** `filteredActivities`. */
  function FilterActivities(activities: seq<Activity>, c: Criteria): (r: seq<Activity>)
    ensures IsSublist(r, activities)
    ensures forall a :: a in r <==> a in activities && MatchesCity(c, a) && MatchesName(c, a) &&
                                     MatchesCategory(c, a) && WithinBudget(c, a)
    ensures forall a :: a in activities ==> multiset(r)[a] == if Selects(c)(a) then multiset(activities)[a] else 0
  {
    var r := Filter(activities, Selects(c));
    forall a ensures a in r <==> a in activities && Selects(c)(a) {
      FilterMembership(activities, Selects(c), a);
    }
    FilterCounts(activities, Selects(c));
    r
  }

  /**
   * With no city, an empty query and the "all" category, only the budget filters: exactly the
   * activities whose cost (missing = 0) is within it are kept.
   */
  lemma OnlyBudgetFilters(activities: seq<Activity>, maxBudget: int, a: Activity)
    ensures a in FilterActivities(activities, Criteria(None, "", "all", maxBudget)) <==>
            a in activities && a.cost.GetOr(0) <= maxBudget
  {
    EmptyContained(Lower(a.name));
  }

  /** The name search ignores case: typing the query in upper case selects the same activities. */
  lemma SearchIgnoresCase(activities: seq<Activity>, c: Criteria)
    ensures FilterActivities(activities, c.(query := Upper(c.query))) == FilterActivities(activities, c)
  {
    LowerOfUpper(c.query);
    FilterFunctional(activities, Selects(c), Selects(c.(query := Upper(c.query))));
  }

  /** Raising the budget slider never drops an activity: the old result is a sublist of the new one. */
  lemma RaisingBudgetKeeps(activities: seq<Activity>, c: Criteria, higher: int)
    requires c.maxBudget <= higher
    ensures IsSublist(FilterActivities(activities, c), FilterActivities(activities, c.(maxBudget := higher)))
  {
    FilterMonotone(activities, Selects(c), Selects(c.(maxBudget := higher)));
  }
}
