/** The batch-expense form an administrator fills in: a group, then a day,
    a location and an event of that group's itinerary, a set of members and
    a quantity and cost. Itineraries and member lists are cached per group
    id. Every id the form holds is the text of a `<select>` value or of
    `user_id.toString()`. */
module AddExpenseForm {
  import opened Collections
  import opened Text
  import opened Tours

  const AdminRole: string := "admin"
  const DefaultQuantity: string := "1"

  /** One entry of `GET /groups`: a group and the caller's role in it. */
  datatype GroupListing = GroupListing(groupId: nat, groupName: string, role: string)

  /** One entry of `GET /groups/:groupId/users`. */
  datatype GroupUser = GroupUser(userId: nat, username: string, role: string)

  /** The body of `POST /expenses/admin`, with its fields still as the form
      holds them. */
  datatype ExpenseRequest = ExpenseRequest(eventId: string, userIds: seq<string>, quantity: string, actualCost: string)

  /** The groups the form offers: those the caller administers. */
  function AdminListings(gs: seq<GroupListing>): (r: seq<GroupListing>)
    ensures IsSubsequence(r, gs)
    ensures forall g :: g in r <==> g in gs && g.role == AdminRole
  {
    Filter((g: GroupListing) => g.role == AdminRole, gs)
  }

  /** The members the form offers for a group: everyone but its admins. */
  function NonAdminUsers(us: seq<GroupUser>): (r: seq<GroupUser>)
    ensures IsSubsequence(r, us)
    ensures forall u :: u in r <==> u in us && u.role != AdminRole
  {
    Filter((u: GroupUser) => u.role != AdminRole, us)
  }

  function UserIdText(u: GroupUser): string {
    IdText(u.userId)
  }

  /** `users.map(u => u.user_id.toString())`. */
  function UserIdTexts(us: seq<GroupUser>): (r: seq<string>)
    ensures |r| == |us| && forall i :: 0 <= i < |us| ==> r[i] == IdText(us[i].userId)
  {
    Map(UserIdText, us)
  }

  predicate DistinctUserIds(us: seq<GroupUser>) {
    forall i, j :: 0 <= i < j < |us| ==> us[i].userId != us[j].userId
  }

  /** Different users have different id texts. */
  lemma UserIdTextsDistinct(us: seq<GroupUser>)
    requires DistinctUserIds(us)
    ensures Distinct(UserIdTexts(us))
  {
    var ids := UserIdTexts(us);
    forall i, j | 0 <= i < j < |ids| ensures ids[i] != ids[j] {
      IdTextInjective(us[i].userId, us[j].userId);
    }
  }

  // Toggling one member

  /** `prev.filter(x => x !== id)`. */
  function Without(s: seq<string>, id: string): (r: seq<string>)
    ensures IsSubsequence(r, s)
    ensures forall y :: y in r <==> y in s && y != id
    ensures forall y :: y != id ==> multiset(r)[y] == multiset(s)[y]
  {
    if s == [] then []
    else
      assert s == [s[0]] + s[1..];
      if s[0] == id then Without(s[1..], id) else [s[0]] + Without(s[1..], id)
  }

  /** Removing an id that was appended to a sequence without it gives the
      sequence back. */
  lemma {:induction false} WithoutAppended(s: seq<string>, id: string)
    requires id !in s
    ensures Without(s + [id], id) == s
  {
    if s == [] {
      assert s + [id] == [id];
    } else {
      assert (s + [id])[0] == s[0] && (s + [id])[1..] == s[1..] + [id];
      WithoutAppended(s[1..], id);
      assert s == [s[0]] + s[1..];
    }
  }

  /** `toggleUser`: drop `id` when it is selected, otherwise add it last. */
  function Toggle(prev: seq<string>, id: string): (r: seq<string>)
    ensures id in r <==> id !in prev
    ensures forall y :: y in r ==> y in prev || y == id
    ensures forall y :: y != id ==> multiset(r)[y] == multiset(prev)[y]
    ensures id in prev ==> IsSubsequence(r, prev)
    ensures id !in prev ==> r == prev + [id]
  {
    if id in prev then Without(prev, id) else prev + [id]
  }

  /** Adding a member and toggling it again restores the selection. */
  lemma ToggleTwice(prev: seq<string>, id: string)
    requires id !in prev
    ensures Toggle(Toggle(prev, id), id) == prev
  {
    WithoutAppended(prev, id);
  }

  /** On a selection without repetitions, two toggles of one member leave
      the same members selected. */
  lemma ToggleTwiceMembers(prev: seq<string>, id: string)
    requires Distinct(prev)
    ensures multiset(Toggle(Toggle(prev, id), id)) == multiset(prev)
  {
    if id in prev {
      DistinctOnce(prev, id);
      var once := Toggle(prev, id);
      assert Toggle(once, id) == once + [id];
      assert multiset(once)[id] == 0;
    } else {
      ToggleTwice(prev, id);
    }
  }

  /** Toggling never selects a member twice. */
  lemma ToggleDistinct(prev: seq<string>, id: string)
    requires Distinct(prev)
    ensures Distinct(Toggle(prev, id))
  {
    if id in prev {
      SubsequenceDistinct(Toggle(prev, id), prev);
    }
  }

  // Selecting all members

  /** `handleSelectAllUsers(checked)`: all listed members, or none. A
      selection already of the full length is kept as it is. */
  function SelectAllUpdate(prev: seq<string>, allIds: seq<string>, checked: bool): (r: seq<string>)
    ensures !checked ==> r == []
    ensures checked ==> |r| == |allIds| && (r == allIds || r == prev)
    ensures checked && |prev| != |allIds| ==> r == allIds
  {
    if checked then (if |prev| == |allIds| then prev else allIds)
    else (if |prev| == 0 then prev else [])
  }

  /** Keeping a full-length selection loses nothing: when the selection only
      ever holds listed members, once each, selecting all leaves exactly the
      listed members selected. */
  lemma SelectAllSelectsEveryone(prev: seq<string>, allIds: seq<string>)
    requires Distinct(prev) && Distinct(allIds)
    requires forall x :: x in prev ==> x in allIds
    ensures forall x :: x in SelectAllUpdate(prev, allIds, true) <==> x in allIds
  {
    SameSizeSameMembers(prev, allIds);
  }

  /** The select-all box is ticked when there are members and as many are
      selected as are listed. */
  predicate SelectAllChecked(selected: seq<string>, allIds: seq<string>) {
    |allIds| > 0 && |selected| == |allIds|
  }

  /** Counting stands for membership: on a selection of listed members, once
      each, the box is ticked exactly when every listed member is selected. */
  lemma SelectAllCheckedIff(selected: seq<string>, allIds: seq<string>)
    requires Distinct(selected) && Distinct(allIds)
    requires forall x :: x in selected ==> x in allIds
    ensures SelectAllChecked(selected, allIds) <==> allIds != [] && forall x :: x in allIds ==> x in selected
  {
    SameSizeSameMembers(selected, allIds);
  }

  // The cascading lookups

  /** `d.day_id.toString() === dayId`. */
  predicate DayIs(d: Day, dayId: string) {
    IdText(d.dayId) == dayId
  }

  /** `l.location_id.toString() === locationId`. */
  predicate LocationIs(l: Location, locationId: string) {
    IdText(l.locationId) == locationId
  }

  function HasDayId(dayId: string): Day -> bool {
    (d: Day) => DayIs(d, dayId)
  }

  function HasLocationId(locationId: string): Location -> bool {
    (l: Location) => LocationIs(l, locationId)
  }

  /** `availableDays`: the days of the cached itinerary of the group. */
  function DaysOf(itineraries: map<string, Tour>, groupId: string): seq<Day> {
    if groupId in itineraries then itineraries[groupId].days.GetOr([]) else []
  }

  /** `availableLocations`: the locations of the first day whose id text is
      `dayId`, or none. */
  function LocationsOfDay(days: seq<Day>, dayId: string): (r: seq<Location>)
    ensures (forall i :: 0 <= i < |days| ==> !DayIs(days[i], dayId)) ==> r == []
    ensures forall i :: FirstMatchAt(HasDayId(dayId), days, i) ==> r == days[i].locations.GetOr([])
  {
    match FindIndex(HasDayId(dayId), days)
    case None => []
    case Some(k) =>
      assert forall i :: FirstMatchAt(HasDayId(dayId), days, i) ==> i == k;
      days[k].locations.GetOr([])
  }

  /** `availableEvents`: the events of the first location whose id text is
      `locationId`, or none. */
  function EventsOfLocation(locations: seq<Location>, locationId: string): (r: seq<TourEvent>)
    ensures (forall i :: 0 <= i < |locations| ==> !LocationIs(locations[i], locationId)) ==> r == []
    ensures forall i :: FirstMatchAt(HasLocationId(locationId), locations, i) ==> r == locations[i].events.GetOr([])
  {
    match FindIndex(HasLocationId(locationId), locations)
    case None => []
    case Some(k) =>
      assert forall i :: FirstMatchAt(HasLocationId(locationId), locations, i) ==> i == k;
      locations[k].events.GetOr([])
  }

  /** The submit guard: an event, at least one member, a quantity and a
      cost. */
  predicate CanSubmit(eventId: string, userIds: seq<string>, quantity: string, actualCost: string) {
    eventId != "" && |userIds| > 0 && quantity != "" && actualCost != ""
  }

  /** `selected` holds only ids of `listed`, and none twice when `listed`
      has no repeats. */
  ghost predicate SelectionOf(selected: seq<string>, listed: seq<string>) {
    (forall id :: id in selected ==> id in listed) &&
    (Distinct(listed) ==> Distinct(selected))
  }

  /** The state of the form. */
  class ExpenseForm {
    var groups: seq<GroupListing>
    var itineraries: map<string, Tour>
    var users: map<string, seq<GroupUser>>
    var selectedGroupId: string
    var selectedDayId: string
    var selectedLocationId: string
    var selectedEventId: string
    var selectedUserIds: seq<string>
    var quantity: string
    var actualCost: string

    function AvailableDays(): seq<Day>
      reads this
    {
      DaysOf(itineraries, selectedGroupId)
    }

    function AvailableLocations(): seq<Location>
      reads this
    {
      LocationsOfDay(AvailableDays(), selectedDayId)
    }

    function AvailableEvents(): seq<TourEvent>
      reads this
    {
      EventsOfLocation(AvailableLocations(), selectedLocationId)
    }

    /** `availableUsers`: the cached members of the selected group. */
    function AvailableUsers(): seq<GroupUser>
      reads this
    {
      if selectedGroupId in users then users[selectedGroupId] else []
    }

    /** Only listed members of the selected group are ever selected, and
        none twice when the group lists each member once. */
    ghost predicate Valid()
      reads this
    {
      SelectionOf(selectedUserIds, UserIdTexts(AvailableUsers()))
    }

    constructor()
      ensures groups == [] && itineraries == map[] && users == map[]
      ensures selectedGroupId == "" && selectedDayId == "" && selectedLocationId == "" && selectedEventId == ""
      ensures selectedUserIds == [] && quantity == DefaultQuantity && actualCost == ""
      ensures Valid()
    {
      groups := [];
      itineraries := map[];
      users := map[];
      selectedGroupId := "";
      selectedDayId := "";
      selectedLocationId := "";
      selectedEventId := "";
      selectedUserIds := [];
      quantity := DefaultQuantity;
      actualCost := "";
    }

    /** The mount-time load of `GET /groups`; `None` is a failed request,
        which leaves the list as it was. */
    method LoadGroups(response: Option<seq<GroupListing>>)
      requires Valid()
      modifies this
      ensures groups == if response.Some? then AdminListings(response.value) else old(groups)
      ensures itineraries == old(itineraries) && users == old(users)
      ensures selectedGroupId == old(selectedGroupId) && selectedDayId == old(selectedDayId)
      ensures selectedLocationId == old(selectedLocationId) && selectedEventId == old(selectedEventId)
      ensures selectedUserIds == old(selectedUserIds) && quantity == old(quantity) && actualCost == old(actualCost)
      ensures Valid()
    {
      if response.Some? {
        groups := AdminListings(response.value);
      }
    }

    /** `handleGroupChange(groupId)`. `itineraryResponse` and
        `usersResponse` are what `GET /tours/:groupId` and
        `GET /groups/:groupId/users` would answer (`None`: the request
        fails); the out-parameters say which requests are made. A failed
        itinerary request skips the member request. */
    method HandleGroupChange(groupId: string, itineraryResponse: Option<Tour>, usersResponse: Option<seq<GroupUser>>)
      returns (fetchedItinerary: bool, fetchedUsers: bool)
      requires Valid()
      modifies this
      ensures selectedGroupId == groupId
      ensures selectedDayId == "" && selectedLocationId == "" && selectedEventId == "" && selectedUserIds == []
      ensures groups == old(groups) && quantity == old(quantity) && actualCost == old(actualCost)
      ensures fetchedItinerary <==> groupId != "" && groupId !in old(itineraries)
      ensures fetchedUsers <==> groupId != "" && groupId !in old(users) && (fetchedItinerary ==> itineraryResponse.Some?)
      ensures itineraries == if fetchedItinerary && itineraryResponse.Some? then old(itineraries)[groupId := itineraryResponse.value] else old(itineraries)
      ensures users == if fetchedUsers && usersResponse.Some? then old(users)[groupId := NonAdminUsers(usersResponse.value)] else old(users)
      ensures Valid()
    {
      selectedGroupId := groupId;
      selectedDayId := "";
      selectedLocationId := "";
      selectedEventId := "";
      selectedUserIds := [];
      fetchedItinerary, fetchedUsers := false, false;
      if groupId == "" {
        return;
      }
      var cachedItinerary := groupId in itineraries;
      var cachedUsers := groupId in users;
      if !cachedItinerary {
        fetchedItinerary := true;
        if itineraryResponse.None? {
          return;
        }
        itineraries := itineraries[groupId := itineraryResponse.value];
      }
      if !cachedUsers {
        fetchedUsers := true;
        if usersResponse.Some? {
          users := users[groupId := NonAdminUsers(usersResponse.value)];
        }
      }
    }

    /** Choosing a day; the location and event already chosen stay. */
    method SelectDay(dayId: string)
      requires Valid()
      modifies this
      ensures selectedDayId == dayId
      ensures groups == old(groups) && itineraries == old(itineraries) && users == old(users)
      ensures selectedGroupId == old(selectedGroupId) && selectedLocationId == old(selectedLocationId)
      ensures selectedEventId == old(selectedEventId) && selectedUserIds == old(selectedUserIds)
      ensures quantity == old(quantity) && actualCost == old(actualCost)
      ensures Valid()
    {
      selectedDayId := dayId;
    }

    /** Choosing a location; the event already chosen stays. */
    method SelectLocation(locationId: string)
      requires Valid()
      modifies this
      ensures selectedLocationId == locationId
      ensures groups == old(groups) && itineraries == old(itineraries) && users == old(users)
      ensures selectedGroupId == old(selectedGroupId) && selectedDayId == old(selectedDayId)
      ensures selectedEventId == old(selectedEventId) && selectedUserIds == old(selectedUserIds)
      ensures quantity == old(quantity) && actualCost == old(actualCost)
      ensures Valid()
    {
      selectedLocationId := locationId;
    }

    method SelectEvent(eventId: string)
      requires Valid()
      modifies this
      ensures selectedEventId == eventId
      ensures groups == old(groups) && itineraries == old(itineraries) && users == old(users)
      ensures selectedGroupId == old(selectedGroupId) && selectedDayId == old(selectedDayId)
      ensures selectedLocationId == old(selectedLocationId) && selectedUserIds == old(selectedUserIds)
      ensures quantity == old(quantity) && actualCost == old(actualCost)
      ensures Valid()
    {
      selectedEventId := eventId;
    }

    method SetQuantity(text: string)
      requires Valid()
      modifies this
      ensures quantity == text
      ensures groups == old(groups) && itineraries == old(itineraries) && users == old(users)
      ensures selectedGroupId == old(selectedGroupId) && selectedDayId == old(selectedDayId)
      ensures selectedLocationId == old(selectedLocationId) && selectedEventId == old(selectedEventId)
      ensures selectedUserIds == old(selectedUserIds) && actualCost == old(actualCost)
      ensures Valid()
    {
      quantity := text;
    }

    method SetActualCost(text: string)
      requires Valid()
      modifies this
      ensures actualCost == text
      ensures groups == old(groups) && itineraries == old(itineraries) && users == old(users)
      ensures selectedGroupId == old(selectedGroupId) && selectedDayId == old(selectedDayId)
      ensures selectedLocationId == old(selectedLocationId) && selectedEventId == old(selectedEventId)
      ensures selectedUserIds == old(selectedUserIds) && quantity == old(quantity)
      ensures Valid()
    {
      actualCost := text;
    }

    /** A click on a member's row; the rows are the available members, so
        `id` is one of their id texts whenever the page calls this. */
    method ToggleUser(id: string)
      requires Valid()
      modifies this
      ensures selectedUserIds == Toggle(old(selectedUserIds), id)
      ensures groups == old(groups) && itineraries == old(itineraries) && users == old(users)
      ensures selectedGroupId == old(selectedGroupId) && selectedDayId == old(selectedDayId)
      ensures selectedLocationId == old(selectedLocationId) && selectedEventId == old(selectedEventId)
      ensures quantity == old(quantity) && actualCost == old(actualCost)
      ensures id in UserIdTexts(AvailableUsers()) ==> Valid()
    {
      if Distinct(selectedUserIds) {
        ToggleDistinct(selectedUserIds, id);
      }
      selectedUserIds := Toggle(selectedUserIds, id);
    }

    /** The select-all box. */
    method SelectAllUsers(checked: bool)
      requires Valid()
      modifies this
      ensures selectedUserIds == SelectAllUpdate(old(selectedUserIds), UserIdTexts(AvailableUsers()), checked)
      ensures groups == old(groups) && itineraries == old(itineraries) && users == old(users)
      ensures selectedGroupId == old(selectedGroupId) && selectedDayId == old(selectedDayId)
      ensures selectedLocationId == old(selectedLocationId) && selectedEventId == old(selectedEventId)
      ensures quantity == old(quantity) && actualCost == old(actualCost)
      ensures Valid()
      ensures checked && Distinct(UserIdTexts(AvailableUsers())) ==>
                forall x :: x in selectedUserIds <==> x in UserIdTexts(AvailableUsers())
    {
      var allUserIds := UserIdTexts(AvailableUsers());
      if checked && Distinct(allUserIds) {
        SelectAllSelectsEveryone(selectedUserIds, allUserIds);
      }
      selectedUserIds := SelectAllUpdate(selectedUserIds, allUserIds, checked);
    }

    /** `handleSubmit`. Nothing is sent unless the guard holds; `serverOk`
        says whether `POST /expenses/admin` succeeds. A success clears the
        event, the members, the quantity and the cost and keeps the group,
        day and location; a failure keeps everything. */
    method Submit(serverOk: bool) returns (sent: Option<ExpenseRequest>)
      requires Valid()
      modifies this
      ensures sent.Some? <==> CanSubmit(old(selectedEventId), old(selectedUserIds), old(quantity), old(actualCost))
      ensures sent.Some? ==> sent.value == ExpenseRequest(old(selectedEventId), old(selectedUserIds), old(quantity), old(actualCost))
      ensures groups == old(groups) && itineraries == old(itineraries) && users == old(users)
      ensures selectedGroupId == old(selectedGroupId) && selectedDayId == old(selectedDayId)
      ensures selectedLocationId == old(selectedLocationId)
      ensures if sent.Some? && serverOk
              then selectedEventId == "" && selectedUserIds == [] && quantity == DefaultQuantity && actualCost == ""
              else selectedEventId == old(selectedEventId) && selectedUserIds == old(selectedUserIds) &&
                   quantity == old(quantity) && actualCost == old(actualCost)
      ensures Valid()
    {
      if !CanSubmit(selectedEventId, selectedUserIds, quantity, actualCost) {
        return None;
      }
      sent := Some(ExpenseRequest(selectedEventId, selectedUserIds, quantity, actualCost));
      if serverOk {
        selectedEventId := "";
        selectedUserIds := [];
        quantity := DefaultQuantity;
        actualCost := "";
      }
    }
  }
}
