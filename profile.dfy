/** The profile page: its trip lists, the edit form's initial values and the avatar initial. */
module Profile {
  import opened Wrappers
  import opened Lists
  import opened Text
  import opened Records

  function IsPlanned(): Trip -> bool
  {
    (t: Trip) => t.status == "planning" || t.status == "ongoing"
  }

  function IsCompleted(): Trip -> bool
  {
    (t: Trip) => t.status == "completed"
  }

  /** `plannedTrips`: the trips being planned or under way, in list order. */
  function PlannedTrips(trips: seq<Trip>): (r: seq<Trip>)
    ensures IsSublist(r, trips)
    ensures forall t :: t in r <==> t in trips && (t.status == "planning" || t.status == "ongoing")
    ensures forall t :: t in trips ==>
              multiset(r)[t] == if t.status == "planning" || t.status == "ongoing" then multiset(trips)[t] else 0
  {
    var r := Filter(trips, IsPlanned());
    forall t ensures t in r <==> t in trips && IsPlanned()(t) {
      FilterMembership(trips, IsPlanned(), t);
    }
    FilterCounts(trips, IsPlanned());
    r
  }

  /** `completedTrips`: the completed trips, in list order. */
  function CompletedTrips(trips: seq<Trip>): (r: seq<Trip>)
    ensures IsSublist(r, trips)
    ensures forall t :: t in r <==> t in trips && t.status == "completed"
    ensures forall t :: t in trips ==> multiset(r)[t] == if t.status == "completed" then multiset(trips)[t] else 0
  {
    var r := Filter(trips, IsCompleted());
    forall t ensures t in r <==> t in trips && IsCompleted()(t) {
      FilterMembership(trips, IsCompleted(), t);
    }
    FilterCounts(trips, IsCompleted());
    r
  }

  /**
   * The two lists never share a trip and together hold at most every trip; a trip with any
   * status other than planning, ongoing and completed is in neither.
   */
  lemma TripListsPartition(trips: seq<Trip>, t: Trip)
    ensures !(t in PlannedTrips(trips) && t in CompletedTrips(trips))
    ensures t.status !in ["planning", "ongoing", "completed"] ==>
              t !in PlannedTrips(trips) && t !in CompletedTrips(trips)
    ensures |PlannedTrips(trips)| + |CompletedTrips(trips)| <= |trips|
  {
    FilterDisjointLength(trips, IsPlanned(), IsCompleted());
  }

  /** The fields of the edit form. */
  datatype ProfileForm = ProfileForm(avatar: string, bio: string, favoriteDestinations: seq<string>, travelStyle: string)

  /** The form as filled from the signed-in user: each missing field becomes empty. */
  function FormDefaults(u: User): (f: ProfileForm)
    ensures u.avatar.None? ==> f.avatar == ""
    ensures u.bio.None? ==> f.bio == ""
    ensures u.favoriteDestinations.None? ==> f.favoriteDestinations == []
    ensures u.travelStyle.None? ==> f.travelStyle == ""
    ensures u.avatar.Some? ==> f.avatar == u.avatar.value
    ensures u.bio.Some? ==> f.bio == u.bio.value
    ensures u.favoriteDestinations.Some? ==> f.favoriteDestinations == u.favoriteDestinations.value
    ensures u.travelStyle.Some? ==> f.travelStyle == u.travelStyle.value
  {
    ProfileForm(u.avatar.GetOr(""), u.bio.GetOr(""), u.favoriteDestinations.GetOr([]), u.travelStyle.GetOr(""))
  }

  /**
   * The avatar fallback: the first character of the full name as typed, else the first character
   * of the email in upper case, else nothing.
   */
  function AvatarInitial(u: User): (r: string)
    ensures |r| <= 1
    ensures u.fullName.Some? && u.fullName.value != "" ==> r == [u.fullName.value[0]]
    ensures (u.fullName.None? || u.fullName.value == "") && u.email.Some? && u.email.value != "" ==>
              r == [UpperChar(u.email.value[0])]
    ensures r == "" <==> (u.fullName.None? || u.fullName.value == "") && (u.email.None? || u.email.value == "")
  {
    if u.fullName.Some? && u.fullName.value != "" then u.fullName.value[..1]
    else if u.email.Some? && u.email.value != "" then Upper(u.email.value[..1])
    else ""
  }
}
