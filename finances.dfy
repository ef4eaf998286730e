/** The financial routes of the backend: the group summary, the master
    summary over every group the caller administers, the personal summary,
    the event summary and event details, and the deposit routes. The
    database is a value holding the tables as row lists; money is in integer
    cents. */
module Finances {
  import opened Collections
  import opened Sql
  import opened Sorting
  import opened Text

  type UserId = int
  type GroupId = int
  type EventId = int
  type DepositId = int
  /** An amount of money in cents. */
  type Cents = int

  const AdminRole: string := "admin"

  /** A row of `users_groups`: a user's membership of a group and role in it. */
  datatype UserGroupRow = UserGroupRow(userId: UserId, groupId: GroupId, role: string)

  /** A row of `groups`. */
  datatype GroupRow = GroupRow(groupId: GroupId, groupName: string)

  /** A row of `events` joined with its location and the tour day holding
      that location: `groupId` is the group whose itinerary holds the event. */
  datatype EventRow = EventRow(eventId: EventId, eventName: string, locationName: string, groupId: GroupId)

  /** A row of `expenses`. */
  datatype ExpenseRow = ExpenseRow(expenseId: int, userId: UserId, eventId: EventId, quantity: int, totalCost: Cents, timestamp: int)

  /** A row of `deposits`. */
  datatype DepositRow = DepositRow(depositId: DepositId, userId: UserId, groupId: GroupId, amount: Cents, timestamp: int)

  /** The tables the routes read; `usernames` is the `users` table. */
  datatype Database = Database(
    usernames: map<UserId, string>,
    groups: seq<GroupRow>,
    usersGroups: seq<UserGroupRow>,
    events: seq<EventRow>,
    expenses: seq<ExpenseRow>,
    deposits: seq<DepositRow>)

  /** A row of `users JOIN users_groups`. */
  datatype MemberRow = MemberRow(userId: UserId, username: string, groupId: GroupId, role: string)

  datatype Totals = Totals(totalSpent: Cents, totalDeposited: Cents, balance: Cents)

  datatype UserSummary = UserSummary(userId: UserId, username: string, role: string, totalSpent: Cents, totalDeposited: Cents, balance: Cents)

  /** The body of `GET /group/:groupId`. */
  datatype GroupReport = GroupReport(groupSummary: Totals, userSummaries: seq<UserSummary>)

  /** One element of `groupSummaries` in `GET /admin-summary`. */
  datatype GroupEntry = GroupEntry(groupId: GroupId, groupName: string, groupSummary: Totals, userSummaries: seq<UserSummary>)

  /** The body of `GET /admin-summary`. */
  datatype MasterReport = MasterReport(masterSummary: Totals, groupSummaries: seq<GroupEntry>)

  // ---------------------------------------------------------------------
  // Row selections of the queries

  /** `users u JOIN users_groups ug ON u.user_id = ug.user_id`. */
  function JoinUsers(usernames: map<UserId, string>, ugs: seq<UserGroupRow>): (r: seq<MemberRow>)
    ensures forall m :: m in r <==> (exists i :: 0 <= i < |ugs| && ugs[i].userId in usernames &&
                                        m == MemberRow(ugs[i].userId, usernames[ugs[i].userId], ugs[i].groupId, ugs[i].role))
  {
    if ugs == [] then []
    else
      var rest := JoinUsers(usernames, ugs[1..]);
      assert forall i :: 1 <= i < |ugs| ==> ugs[i] == ugs[1..][i - 1];
      if ugs[0].userId in usernames
      then [MemberRow(ugs[0].userId, usernames[ugs[0].userId], ugs[0].groupId, ugs[0].role)] + rest
      else rest
  }

  /** `... WHERE ug.group_id = g`, keeping the join's order. */
  function MembersOfGroup(rows: seq<MemberRow>, g: GroupId): (r: seq<MemberRow>)
    ensures IsSubsequence(r, rows)
    ensures forall m :: m in r <==> m in rows && m.groupId == g
  {
    Filter((m: MemberRow) => m.groupId == g, rows)
  }

  /** `... WHERE ug.group_id IN (ids)`. */
  function MembersOfGroups(rows: seq<MemberRow>, ids: set<GroupId>): (r: seq<MemberRow>)
    ensures IsSubsequence(r, rows)
    ensures forall m :: m in r <==> m in rows && m.groupId in ids
  {
    Filter((m: MemberRow) => m.groupId in ids, rows)
  }

  function MemberIds(members: seq<MemberRow>): (r: seq<UserId>)
    ensures |r| == |members|
    ensures forall i :: 0 <= i < |members| ==> r[i] == members[i].userId
  {
    if members == [] then [] else [members[0].userId] + MemberIds(members[1..])
  }

  /** The (user_id, total_cost) pairs of expense rows. */
  function CostRows(exps: seq<ExpenseRow>): (r: seq<(UserId, int)>)
    ensures |r| == |exps|
    ensures forall i :: 0 <= i < |exps| ==> r[i] == (exps[i].userId, exps[i].totalCost)
  {
    if exps == [] then [] else [(exps[0].userId, exps[0].totalCost)] + CostRows(exps[1..])
  }

  /** The (user_id, amount) pairs of deposit rows. */
  function AmountRows(deps: seq<DepositRow>): (r: seq<(UserId, int)>)
    ensures |r| == |deps|
    ensures forall i :: 0 <= i < |deps| ==> r[i] == (deps[i].userId, deps[i].amount)
  {
    if deps == [] then [] else [(deps[0].userId, deps[0].amount)] + AmountRows(deps[1..])
  }

  /** The events on the itinerary of group `g`: the nested
      `event_id IN (... tour_days WHERE group_id = g)` of the group route. */
  function GroupEventIds(db: Database, g: GroupId): set<EventId> {
    set e | e in db.events && e.groupId == g :: e.eventId
  }

  function ExpensesOnEvents(exps: seq<ExpenseRow>, eventIds: set<EventId>): (r: seq<ExpenseRow>)
    ensures forall e :: e in r <==> e in exps && e.eventId in eventIds
  {
    if exps == [] then []
    else
      assert forall i :: 1 <= i < |exps| ==> exps[i] == exps[1..][i - 1];
      (if exps[0].eventId in eventIds then [exps[0]] else []) + ExpensesOnEvents(exps[1..], eventIds)
  }

  function DepositsOfGroup(deps: seq<DepositRow>, g: GroupId): (r: seq<DepositRow>)
    ensures forall d :: d in r <==> d in deps && d.groupId == g
  {
    if deps == [] then []
    else
      assert forall i :: 1 <= i < |deps| ==> deps[i] == deps[1..][i - 1];
      (if deps[0].groupId == g then [deps[0]] else []) + DepositsOfGroup(deps[1..], g)
  }

  // ---------------------------------------------------------------------
  // Per-user and per-group summaries

  /** One user's summary: `balance = total_deposited - total_spent`. */
  function Summarize(m: MemberRow, spent: Cents, deposited: Cents): (r: UserSummary)
    ensures r.balance == r.totalDeposited - r.totalSpent
    ensures r.userId == m.userId && r.username == m.username && r.role == m.role
    ensures r.totalSpent == spent && r.totalDeposited == deposited
  {
    UserSummary(m.userId, m.username, m.role, spent, deposited, deposited - spent)
  }

  /** `userSummaries.reduce((sum, u) => sum + u.total_spent, 0)`. */
  function SpentOf(us: seq<UserSummary>): Cents {
    if us == [] then 0 else us[0].totalSpent + SpentOf(us[1..])
  }

  /** `userSummaries.reduce((sum, u) => sum + u.total_deposited, 0)`. */
  function DepositedOf(us: seq<UserSummary>): Cents {
    if us == [] then 0 else us[0].totalDeposited + DepositedOf(us[1..])
  }

  /** A group's totals folded over its user summaries. */
  function TotalsOf(us: seq<UserSummary>): Totals {
    Totals(SpentOf(us), DepositedOf(us), DepositedOf(us) - SpentOf(us))
  }

  /** `users.map(...)` of the group route: each member's sums are found in
      the grouped query results, 0 when the member has no row there. */
  function GroupUserSummaries(users: seq<MemberRow>, allExpenses: seq<(UserId, int)>, allDeposits: seq<(UserId, int)>): (r: seq<UserSummary>)
    ensures |r| == |users|
    ensures forall i :: 0 <= i < |users| ==>
      r[i] == Summarize(users[i], Lookup(allExpenses, users[i].userId).GetOr(0), Lookup(allDeposits, users[i].userId).GetOr(0))
  {
    if users == [] then []
    else
      [Summarize(users[0], Lookup(allExpenses, users[0].userId).GetOr(0), Lookup(allDeposits, users[0].userId).GetOr(0))]
      + GroupUserSummaries(users[1..], allExpenses, allDeposits)
  }

  /** The members of group `g`, in the order of `users_groups`. */
  function GroupMembers(db: Database, g: GroupId): seq<MemberRow> {
    MembersOfGroup(JoinUsers(db.usernames, db.usersGroups), g)
  }

  /** The expense rows the group route sums: those on the group's events. */
  function GroupExpenseRows(db: Database, g: GroupId): seq<(UserId, int)> {
    CostRows(ExpensesOnEvents(db.expenses, GroupEventIds(db, g)))
  }

  /** The deposit rows the group route sums: those of the group. */
  function GroupDepositRows(db: Database, g: GroupId): seq<(UserId, int)> {
    AmountRows(DepositsOfGroup(db.deposits, g))
  }

  /** `GET /group/:groupId`. */
  function GroupRoute(db: Database, g: GroupId): GroupReport {
    var us := GroupUserSummaries(GroupMembers(db, g), GroupBySum(GroupExpenseRows(db, g)), GroupBySum(GroupDepositRows(db, g)));
    GroupReport(TotalsOf(us), us)
  }

  /** Over grouped rows, each summary's sides are that user's row sums. */
  lemma {:induction false} GroupUserSummariesSums(users: seq<MemberRow>, e: seq<(UserId, int)>, d: seq<(UserId, int)>)
    ensures forall i :: 0 <= i < |users| ==>
      GroupUserSummaries(users, GroupBySum(e), GroupBySum(d))[i] == Summarize(users[i], SumWhere(e, users[i].userId), SumWhere(d, users[i].userId))
  {
    forall i | 0 <= i < |users|
      ensures GroupUserSummaries(users, GroupBySum(e), GroupBySum(d))[i] == Summarize(users[i], SumWhere(e, users[i].userId), SumWhere(d, users[i].userId))
    {
      GroupBySumFind(e, users[i].userId);
      GroupBySumFind(d, users[i].userId);
    }
  }

  /** Every member gets exactly one summary, in membership order, carrying
      the member's id, name and role; its spent side is the sum of the
      member's expenses on the group's events and its deposited side the sum
      of the member's deposits to the group, each 0 when there are none. */
  lemma {:induction false} GroupRouteUserSummaries(db: Database, g: GroupId)
    ensures |GroupRoute(db, g).userSummaries| == |GroupMembers(db, g)|
    ensures forall i :: 0 <= i < |GroupMembers(db, g)| ==>
      GroupRoute(db, g).userSummaries[i] ==
      Summarize(GroupMembers(db, g)[i], SumWhere(GroupExpenseRows(db, g), GroupMembers(db, g)[i].userId),
                SumWhere(GroupDepositRows(db, g), GroupMembers(db, g)[i].userId))
    ensures forall i :: 0 <= i < |GroupMembers(db, g)| ==>
      (!HasKey(GroupExpenseRows(db, g), GroupMembers(db, g)[i].userId) ==> GroupRoute(db, g).userSummaries[i].totalSpent == 0) &&
      (!HasKey(GroupDepositRows(db, g), GroupMembers(db, g)[i].userId) ==> GroupRoute(db, g).userSummaries[i].totalDeposited == 0)
  {
    var ms, e, d := GroupMembers(db, g), GroupExpenseRows(db, g), GroupDepositRows(db, g);
    GroupUserSummariesSums(ms, e, d);
    forall i | 0 <= i < |ms|
      ensures !HasKey(e, ms[i].userId) ==> SumWhere(e, ms[i].userId) == 0
      ensures !HasKey(d, ms[i].userId) ==> SumWhere(d, ms[i].userId) == 0
    {
      if !HasKey(e, ms[i].userId) { SumWhereAbsent(e, ms[i].userId); }
      if !HasKey(d, ms[i].userId) { SumWhereAbsent(d, ms[i].userId); }
    }
  }

  lemma {:induction false} GroupUserSummariesTotals(users: seq<MemberRow>, e: seq<(UserId, int)>, d: seq<(UserId, int)>)
    ensures SpentOf(GroupUserSummaries(users, GroupBySum(e), GroupBySum(d))) == SumOverKeys(MemberIds(users), e)
    ensures DepositedOf(GroupUserSummaries(users, GroupBySum(e), GroupBySum(d))) == SumOverKeys(MemberIds(users), d)
  {
    if users != [] {
      GroupUserSummariesTotals(users[1..], e, d);
      GroupBySumFind(e, users[0].userId);
      GroupBySumFind(d, users[0].userId);
      assert MemberIds(users)[1..] == MemberIds(users[1..]);
      assert GroupUserSummaries(users, GroupBySum(e), GroupBySum(d))[1..] == GroupUserSummaries(users[1..], GroupBySum(e), GroupBySum(d));
    }
  }

  /** The group totals are the sums of the member summaries and the group
      balance is their difference. When each member has one membership row
      and every scoped expense and deposit belongs to a member, the totals
      are also the direct sums of all the group's expense and deposit rows. */
  lemma {:induction false} GroupRouteTotals(db: Database, g: GroupId)
    ensures GroupRoute(db, g).groupSummary.totalSpent == SpentOf(GroupRoute(db, g).userSummaries)
    ensures GroupRoute(db, g).groupSummary.totalDeposited == DepositedOf(GroupRoute(db, g).userSummaries)
    ensures GroupRoute(db, g).groupSummary.balance == GroupRoute(db, g).groupSummary.totalDeposited - GroupRoute(db, g).groupSummary.totalSpent
    ensures Distinct(MemberIds(GroupMembers(db, g))) &&
            (forall e :: e in db.expenses && e.eventId in GroupEventIds(db, g) ==> e.userId in MemberIds(GroupMembers(db, g))) &&
            (forall d :: d in db.deposits && d.groupId == g ==> d.userId in MemberIds(GroupMembers(db, g)))
            ==>
            GroupRoute(db, g).groupSummary.totalSpent == SumAll(GroupExpenseRows(db, g)) &&
            GroupRoute(db, g).groupSummary.totalDeposited == SumAll(GroupDepositRows(db, g))
  {
    var ids := MemberIds(GroupMembers(db, g));
    var e, d := GroupExpenseRows(db, g), GroupDepositRows(db, g);
    GroupUserSummariesTotals(GroupMembers(db, g), e, d);
    if Distinct(ids) &&
       (forall x :: x in db.expenses && x.eventId in GroupEventIds(db, g) ==> x.userId in ids) &&
       (forall x :: x in db.deposits && x.groupId == g ==> x.userId in ids)
    {
      var es := ExpensesOnEvents(db.expenses, GroupEventIds(db, g));
      var ds := DepositsOfGroup(db.deposits, g);
      forall i | 0 <= i < |e| ensures e[i].0 in ids {
        assert es[i] in es;
      }
      forall i | 0 <= i < |d| ensures d[i].0 in ids {
        assert ds[i] in ds;
      }
      SumOverKeysAll(ids, e);
      SumOverKeysAll(ids, d);
    }
  }

  // ---------------------------------------------------------------------
  // Master summary

  /** The rows of `groups` with id `g`. */
  function GroupRowsWithId(groups: seq<GroupRow>, g: GroupId): (r: seq<GroupRow>)
    ensures forall x :: x in r <==> x in groups && x.groupId == g
  {
    if groups == [] then []
    else
      assert forall i :: 1 <= i < |groups| ==> groups[i] == groups[1..][i - 1];
      (if groups[0].groupId == g then [groups[0]] else []) + GroupRowsWithId(groups[1..], g)
  }

  /** `groups g JOIN users_groups ug ON g.group_id = ug.group_id
      WHERE ug.user_id = a AND ug.role = 'admin'`: exactly the group rows for
      which `a` holds an admin membership row. */
  function AdminGroupsOf(groups: seq<GroupRow>, ugs: seq<UserGroupRow>, a: UserId): (r: seq<GroupRow>)
    ensures forall x :: x in r <==> (x in groups &&
      exists i :: 0 <= i < |ugs| && ugs[i].userId == a && ugs[i].role == AdminRole && ugs[i].groupId == x.groupId)
  {
    if ugs == [] then []
    else
      assert forall i :: 1 <= i < |ugs| ==> ugs[i] == ugs[1..][i - 1];
      (if ugs[0].userId == a && ugs[0].role == AdminRole then GroupRowsWithId(groups, ugs[0].groupId) else [])
      + AdminGroupsOf(groups, ugs[1..], a)
  }

  function AdminGroups(db: Database, a: UserId): seq<GroupRow> {
    AdminGroupsOf(db.groups, db.usersGroups, a)
  }

  /** `adminGroups.map(g => g.group_id)`, used as the `IN (...)` list. */
  function GroupIdSet(rows: seq<GroupRow>): set<GroupId> {
    set x | x in rows :: x.groupId
  }

  /** `expenses e JOIN users_groups ug ON e.user_id = ug.user_id
      WHERE ug.group_id IN (ids)`, for one expense row: one joined row per
      membership of the expense's user in a listed group, keyed by
      (group_id, user_id). */
  function MembershipsOf(e: ExpenseRow, ugs: seq<UserGroupRow>, ids: set<GroupId>): seq<((GroupId, UserId), int)> {
    if ugs == [] then []
    else (if ugs[0].userId == e.userId && ugs[0].groupId in ids then [((ugs[0].groupId, e.userId), e.totalCost)] else [])
         + MembershipsOf(e, ugs[1..], ids)
  }

  function JoinedExpenseRows(exps: seq<ExpenseRow>, ugs: seq<UserGroupRow>, ids: set<GroupId>): seq<((GroupId, UserId), int)> {
    if exps == [] then [] else MembershipsOf(exps[0], ugs, ids) + JoinedExpenseRows(exps[1..], ugs, ids)
  }

  /** The rows the master route's expense query sums. */
  function MasterExpenseRows(db: Database, ids: set<GroupId>): seq<((GroupId, UserId), int)> {
    JoinedExpenseRows(db.expenses, db.usersGroups, ids)
  }

  /** `deposits WHERE group_id IN (ids)`, keyed by (group_id, user_id). */
  function KeyedDepositRows(deps: seq<DepositRow>, ids: set<GroupId>): seq<((GroupId, UserId), int)> {
    if deps == [] then []
    else (if deps[0].groupId in ids then [((deps[0].groupId, deps[0].userId), deps[0].amount)] else [])
         + KeyedDepositRows(deps[1..], ids)
  }

  function MasterDepositRows(db: Database, ids: set<GroupId>): seq<((GroupId, UserId), int)> {
    KeyedDepositRows(db.deposits, ids)
  }

  /** `usersInGroup.map(...)` of the master route: a user's sides are
      `allExpenses.filter(e => e.group_id === g && e.user_id === u)` and the
      like for deposits, added up. */
  function MasterUserSummaries(g: GroupId, users: seq<MemberRow>,
                               allExpenses: seq<((GroupId, UserId), int)>,
                               allDeposits: seq<((GroupId, UserId), int)>): (r: seq<UserSummary>)
    ensures |r| == |users|
    ensures forall i :: 0 <= i < |users| ==>
      r[i] == Summarize(users[i], SumWhere(allExpenses, (g, users[i].userId)), SumWhere(allDeposits, (g, users[i].userId)))
  {
    if users == [] then []
    else [Summarize(users[0], SumWhere(allExpenses, (g, users[0].userId)), SumWhere(allDeposits, (g, users[0].userId)))]
         + MasterUserSummaries(g, users[1..], allExpenses, allDeposits)
  }

  /** The three row lists the master route fetches for the groups `ids`:
      their members, and the expense and deposit sums grouped by
      (group_id, user_id). */
  datatype MasterData = MasterData(
    allUsers: seq<MemberRow>,
    allExpenses: seq<((GroupId, UserId), int)>,
    allDeposits: seq<((GroupId, UserId), int)>)

  function MasterDataOf(db: Database, ids: set<GroupId>): MasterData {
    MasterData(MembersOfGroups(JoinUsers(db.usernames, db.usersGroups), ids),
               GroupBySum(MasterExpenseRows(db, ids)), GroupBySum(MasterDepositRows(db, ids)))
  }

  /** The callback of `adminGroups.map(group => ...)`. */
  function GroupEntryOf(group: GroupRow, data: MasterData): GroupEntry {
    var uf := MasterUserSummaries(group.groupId, MembersOfGroup(data.allUsers, group.groupId), data.allExpenses, data.allDeposits);
    GroupEntry(group.groupId, group.groupName, TotalsOf(uf), uf)
  }

  /** The entry the master route builds for an admin group of `a`. */
  function MasterEntry(db: Database, a: UserId, group: GroupRow): GroupEntry {
    GroupEntryOf(group, MasterDataOf(db, GroupIdSet(AdminGroups(db, a))))
  }

  /** The callback of `adminGroups.map(...)` over the fetched rows. */
  function EntryFor(data: MasterData): GroupRow -> GroupEntry {
    group => GroupEntryOf(group, data)
  }

  /** The entries of the master report, as its route maps them. */
  function MasterEntries(db: Database, a: UserId): seq<GroupEntry> {
    Map(EntryFor(MasterDataOf(db, GroupIdSet(AdminGroups(db, a)))), AdminGroups(db, a))
  }

  /** The master report lists, in the order of the admin groups, the entry
      the master route builds for each. */
  lemma MasterEntriesIndex(db: Database, a: UserId)
    ensures |MasterEntries(db, a)| == |AdminGroups(db, a)|
    ensures forall j :: 0 <= j < |AdminGroups(db, a)| ==> MasterEntries(db, a)[j] == MasterEntry(db, a, AdminGroups(db, a)[j])
  {
  }

  /** The sum of the groups' spent totals. */
  function GroupsSpent(es: seq<GroupEntry>): Cents {
    if es == [] then 0 else GroupsSpent(es[..|es| - 1]) + es[|es| - 1].groupSummary.totalSpent
  }

  /** The sum of the groups' deposited totals. */
  function GroupsDeposited(es: seq<GroupEntry>): Cents {
    if es == [] then 0 else GroupsDeposited(es[..|es| - 1]) + es[|es| - 1].groupSummary.totalDeposited
  }

  lemma GroupsTotalsSnoc(es: seq<GroupEntry>, e: GroupEntry)
    ensures GroupsSpent(es + [e]) == GroupsSpent(es) + e.groupSummary.totalSpent
    ensures GroupsDeposited(es + [e]) == GroupsDeposited(es) + e.groupSummary.totalDeposited
  {
    assert (es + [e])[..|es|] == es;
  }

  /** The loop of the master route: maps each group to its entry and adds
      the entry's totals to `masterSpent` and `masterDeposited` as it goes. */
  method FoldGroups(groups: seq<GroupRow>, entryFor: GroupRow -> GroupEntry) returns (r: MasterReport)
    ensures r.groupSummaries == Map(entryFor, groups)
    ensures r.masterSummary.totalSpent == GroupsSpent(r.groupSummaries)
    ensures r.masterSummary.totalDeposited == GroupsDeposited(r.groupSummaries)
    ensures r.masterSummary.balance == r.masterSummary.totalDeposited - r.masterSummary.totalSpent
  {
    var masterSpent, masterDeposited := 0, 0;
    var groupSummaries: seq<GroupEntry> := [];
    var i := 0;
    while i < |groups|
      invariant 0 <= i <= |groups|
      invariant |groupSummaries| == i
      invariant forall j :: 0 <= j < i ==> groupSummaries[j] == entryFor(groups[j])
      invariant masterSpent == GroupsSpent(groupSummaries)
      invariant masterDeposited == GroupsDeposited(groupSummaries)
    {
      var entry := entryFor(groups[i]);
      masterSpent := masterSpent + entry.groupSummary.totalSpent;
      masterDeposited := masterDeposited + entry.groupSummary.totalDeposited;
      GroupsTotalsSnoc(groupSummaries, entry);
      groupSummaries := groupSummaries + [entry];
      i := i + 1;
    }
    r := MasterReport(Totals(masterSpent, masterDeposited, masterDeposited - masterSpent), groupSummaries);
  }

  /** `GET /admin-summary`: no groups give the zero report; otherwise the
      entries of the admin groups of `a`, folded into the master totals. */
  method AdminSummary(db: Database, a: UserId) returns (r: MasterReport)
    ensures AdminGroups(db, a) == [] ==> r == MasterReport(Totals(0, 0, 0), [])
    ensures r.groupSummaries == MasterEntries(db, a)
    ensures r.masterSummary.totalSpent == GroupsSpent(r.groupSummaries)
    ensures r.masterSummary.totalDeposited == GroupsDeposited(r.groupSummaries)
    ensures r.masterSummary.balance == r.masterSummary.totalDeposited - r.masterSummary.totalSpent
  {
    var adminGroups := AdminGroups(db, a);
    if |adminGroups| == 0 {
      return MasterReport(Totals(0, 0, 0), []);
    }
    r := FoldGroups(adminGroups, EntryFor(MasterDataOf(db, GroupIdSet(adminGroups))));
  }

  /** How many `users_groups` rows make `u` a member of `g`. */
  function MembershipCount(ugs: seq<UserGroupRow>, u: UserId, g: GroupId): nat {
    if ugs == [] then 0
    else (if ugs[0].userId == u && ugs[0].groupId == g then 1 else 0) + MembershipCount(ugs[1..], u, g)
  }

  /** No user is listed twice in the same group. */
  predicate UniqueMemberships(ugs: seq<UserGroupRow>) {
    forall i, j :: 0 <= i < j < |ugs| ==> ugs[i].userId != ugs[j].userId || ugs[i].groupId != ugs[j].groupId
  }

  lemma {:induction false} MembershipCountOne(ugs: seq<UserGroupRow>, k: int)
    requires UniqueMemberships(ugs) && 0 <= k < |ugs|
    ensures MembershipCount(ugs, ugs[k].userId, ugs[k].groupId) == 1
  {
    var u, g := ugs[k].userId, ugs[k].groupId;
    if k == 0 {
      MembershipCountNone(ugs[1..], u, g);
    } else {
      assert ugs[0].userId != u || ugs[0].groupId != g;
      assert ugs[1..][k - 1] == ugs[k];
      MembershipCountOne(ugs[1..], k - 1);
    }
  }

  lemma {:induction false} MembershipCountNone(ugs: seq<UserGroupRow>, u: UserId, g: GroupId)
    requires forall i :: 0 <= i < |ugs| ==> ugs[i].userId != u || ugs[i].groupId != g
    ensures MembershipCount(ugs, u, g) == 0
  {
    if ugs != [] {
      forall i | 0 <= i < |ugs[1..]| ensures ugs[1..][i].userId != u || ugs[1..][i].groupId != g {
        assert ugs[1..][i] == ugs[i + 1];
      }
      MembershipCountNone(ugs[1..], u, g);
    }
  }

  lemma Distribute(c: int, x: int, y: int)
    ensures c * (x + y) == c * x + c * y
  {
  }

  lemma MulSucc(c: int, x: int)
    ensures (c + 1) * x == c * x + x
  {
  }

  /** One expense joined with the memberships of its user adds its cost to
      the user's sum in group `g` once per membership row there. */
  lemma {:induction false} MembershipsOfSum(e: ExpenseRow, ugs: seq<UserGroupRow>, ids: set<GroupId>, g: GroupId, u: UserId)
    ensures SumWhere(MembershipsOf(e, ugs, ids), (g, u)) ==
            if e.userId == u && g in ids then MembershipCount(ugs, u, g) * e.totalCost else 0
  {
    if ugs != [] {
      var head: seq<((GroupId, UserId), int)> :=
        if ugs[0].userId == e.userId && ugs[0].groupId in ids then [((ugs[0].groupId, e.userId), e.totalCost)] else [];
      SumWhereAppend(head, MembershipsOf(e, ugs[1..], ids), (g, u));
      MembershipsOfSum(e, ugs[1..], ids, g, u);
      var c := MembershipCount(ugs[1..], u, g);
      MulSucc(c, e.totalCost);
    }
  }

  /** The master route's joined expense rows: a user's sum for group `g` is
      all of the user's expenses, whatever event they are on, counted once
      per membership row of the user in `g`. */
  lemma {:induction false} JoinedExpenseSum(exps: seq<ExpenseRow>, ugs: seq<UserGroupRow>, ids: set<GroupId>, g: GroupId, u: UserId)
    ensures SumWhere(JoinedExpenseRows(exps, ugs, ids), (g, u)) ==
            if g in ids then MembershipCount(ugs, u, g) * SumWhere(CostRows(exps), u) else 0
  {
    if exps != [] {
      var here, later := MembershipsOf(exps[0], ugs, ids), JoinedExpenseRows(exps[1..], ugs, ids);
      assert JoinedExpenseRows(exps, ugs, ids) == here + later;
      SumWhereAppend(here, later, (g, u));
      MembershipsOfSum(exps[0], ugs, ids, g, u);
      JoinedExpenseSum(exps[1..], ugs, ids, g, u);
      var x := if exps[0].userId == u then exps[0].totalCost else 0;
      var rest := SumWhere(CostRows(exps[1..]), u);
      assert SumWhere(CostRows(exps), u) == x + rest by {
        assert CostRows(exps)[1..] == CostRows(exps[1..]);
      }
      if g in ids {
        var c := MembershipCount(ugs, u, g);
        assert SumWhere(here, (g, u)) == c * x;
        Distribute(c, x, rest);
      }
    }
  }

  /** The master route's deposit rows: a user's sum for a listed group is
      the user's deposits to that group. */
  lemma {:induction false} KeyedDepositSum(deps: seq<DepositRow>, ids: set<GroupId>, g: GroupId, u: UserId)
    ensures SumWhere(KeyedDepositRows(deps, ids), (g, u)) ==
            if g in ids then SumWhere(AmountRows(DepositsOfGroup(deps, g)), u) else 0
  {
    if deps != [] {
      var d := deps[0];
      var head: seq<((GroupId, UserId), int)> := if d.groupId in ids then [((d.groupId, d.userId), d.amount)] else [];
      assert KeyedDepositRows(deps, ids) == head + KeyedDepositRows(deps[1..], ids);
      SumWhereAppend(head, KeyedDepositRows(deps[1..], ids), (g, u));
      KeyedDepositSum(deps[1..], ids, g, u);
      if g in ids {
        var rest := DepositsOfGroup(deps[1..], g);
        if d.groupId == g {
          assert DepositsOfGroup(deps, g) == [d] + rest;
          assert ([d] + rest)[1..] == rest;
          assert AmountRows([d] + rest) == [(d.userId, d.amount)] + AmountRows(rest);
          assert AmountRows([d] + rest)[1..] == AmountRows(rest);
        } else {
          assert DepositsOfGroup(deps, g) == rest;
        }
      }
    }
  }

  /** Narrowing the members of the admin's groups to one of those groups
      gives that group's members, in the same order. */
  lemma {:induction false} MembersOfGroupsThenGroup(rows: seq<MemberRow>, ids: set<GroupId>, g: GroupId)
    requires g in ids
    ensures MembersOfGroup(MembersOfGroups(rows, ids), g) == MembersOfGroup(rows, g)
  {
    if rows != [] {
      MembersOfGroupsThenGroup(rows[1..], ids, g);
    }
  }

  /** The entry of an admin group in the master report: the group's members
      in order, each with every expense of that user (on any group's event)
      counted once per membership row in the group, and the user's deposits
      to the group; the group totals are folded over those summaries. */
  lemma {:induction false} MasterEntryUserSummaries(db: Database, a: UserId, group: GroupRow)
    requires group in AdminGroups(db, a)
    ensures MasterEntry(db, a, group).groupId == group.groupId
    ensures MasterEntry(db, a, group).groupName == group.groupName
    ensures MasterEntry(db, a, group).groupSummary == TotalsOf(MasterEntry(db, a, group).userSummaries)
    ensures |MasterEntry(db, a, group).userSummaries| == |GroupMembers(db, group.groupId)|
    ensures forall i :: 0 <= i < |GroupMembers(db, group.groupId)| ==>
      MasterEntry(db, a, group).userSummaries[i] ==
      Summarize(GroupMembers(db, group.groupId)[i],
                MembershipCount(db.usersGroups, GroupMembers(db, group.groupId)[i].userId, group.groupId)
                  * SumWhere(CostRows(db.expenses), GroupMembers(db, group.groupId)[i].userId),
                SumWhere(GroupDepositRows(db, group.groupId), GroupMembers(db, group.groupId)[i].userId))
  {
    var g := group.groupId;
    var ids := GroupIdSet(AdminGroups(db, a));
    assert g in ids;
    MembersOfGroupsThenGroup(JoinUsers(db.usernames, db.usersGroups), ids, g);
    var ms := GroupMembers(db, g);
    forall i | 0 <= i < |ms|
      ensures SumWhere(GroupBySum(MasterExpenseRows(db, ids)), (g, ms[i].userId)) ==
              MembershipCount(db.usersGroups, ms[i].userId, g) * SumWhere(CostRows(db.expenses), ms[i].userId)
      ensures SumWhere(GroupBySum(MasterDepositRows(db, ids)), (g, ms[i].userId)) ==
              SumWhere(GroupDepositRows(db, g), ms[i].userId)
    {
      GroupBySumPreservesSums(MasterExpenseRows(db, ids), (g, ms[i].userId));
      GroupBySumPreservesSums(MasterDepositRows(db, ids), (g, ms[i].userId));
      JoinedExpenseSum(db.expenses, db.usersGroups, ids, g, ms[i].userId);
      KeyedDepositSum(db.deposits, ids, g, ms[i].userId);
    }
  }

  /** When nobody is listed twice in a group, a member's spent side in the
      master report is the sum of ALL of that user's expenses, including
      those on events of other groups' itineraries: the master route scopes
      expenses by membership, not by the group's events. */
  lemma {:induction false} MasterSpentIsUserWide(db: Database, a: UserId, group: GroupRow, i: int)
    requires group in AdminGroups(db, a)
    requires UniqueMemberships(db.usersGroups)
    requires 0 <= i < |GroupMembers(db, group.groupId)|
    ensures i < |MasterEntry(db, a, group).userSummaries|
    ensures MasterEntry(db, a, group).userSummaries[i].totalSpent ==
            SumWhere(CostRows(db.expenses), GroupMembers(db, group.groupId)[i].userId)
  {
    MemberCountOne(db, group.groupId, i);
    MasterEntryUserSpent(db, a, group, i);
  }

  /** Without repeated memberships a member of `g` is listed there once. */
  lemma {:induction false} MemberCountOne(db: Database, g: GroupId, i: int)
    requires UniqueMemberships(db.usersGroups)
    requires 0 <= i < |GroupMembers(db, g)|
    ensures MembershipCount(db.usersGroups, GroupMembers(db, g)[i].userId, g) == 1
  {
    var m := GroupMembers(db, g)[i];
    MemberHasMembership(db, g, m);
    var k :| 0 <= k < |db.usersGroups| && db.usersGroups[k].userId == m.userId && db.usersGroups[k].groupId == g;
    MembershipCountOne(db.usersGroups, k);
  }

  lemma {:induction false} MasterEntryUserSpent(db: Database, a: UserId, group: GroupRow, i: int)
    requires group in AdminGroups(db, a)
    requires 0 <= i < |GroupMembers(db, group.groupId)|
    ensures i < |MasterEntry(db, a, group).userSummaries|
    ensures MasterEntry(db, a, group).userSummaries[i].totalSpent ==
            MembershipCount(db.usersGroups, GroupMembers(db, group.groupId)[i].userId, group.groupId)
              * SumWhere(CostRows(db.expenses), GroupMembers(db, group.groupId)[i].userId)
  {
    MasterEntryUserSummaries(db, a, group);
  }

  lemma {:induction false} MemberHasMembership(db: Database, g: GroupId, m: MemberRow)
    requires m in GroupMembers(db, g)
    ensures exists k :: 0 <= k < |db.usersGroups| && db.usersGroups[k].userId == m.userId && db.usersGroups[k].groupId == g
  {
    assert m in JoinUsers(db.usernames, db.usersGroups) && m.groupId == g;
  }

  // ---------------------------------------------------------------------
  // Personal summary

  /** `SELECT total_cost FROM expenses WHERE user_id = u`. */
  function UserCosts(exps: seq<ExpenseRow>, u: UserId): seq<Cents> {
    if exps == [] then []
    else (if exps[0].userId == u then [exps[0].totalCost] else []) + UserCosts(exps[1..], u)
  }

  /** `SELECT amount FROM deposits WHERE user_id = u`. */
  function UserAmounts(deps: seq<DepositRow>, u: UserId): seq<Cents> {
    if deps == [] then []
    else (if deps[0].userId == u then [deps[0].amount] else []) + UserAmounts(deps[1..], u)
  }

  lemma {:induction false} UserCostsTotal(exps: seq<ExpenseRow>, u: UserId)
    ensures Total(UserCosts(exps, u)) == SumWhere(CostRows(exps), u)
    ensures UserCosts(exps, u) == [] <==> !HasKey(CostRows(exps), u)
  {
    if exps != [] {
      UserCostsTotal(exps[1..], u);
      assert CostRows(exps)[1..] == CostRows(exps[1..]);
      HasKeyCons(CostRows(exps), u);
      var head: seq<Cents> := if exps[0].userId == u then [exps[0].totalCost] else [];
      TotalAppend(head, UserCosts(exps[1..], u));
    }
  }

  lemma {:induction false} UserAmountsTotal(deps: seq<DepositRow>, u: UserId)
    ensures Total(UserAmounts(deps, u)) == SumWhere(AmountRows(deps), u)
    ensures UserAmounts(deps, u) == [] <==> !HasKey(AmountRows(deps), u)
  {
    if deps != [] {
      UserAmountsTotal(deps[1..], u);
      assert AmountRows(deps)[1..] == AmountRows(deps[1..]);
      HasKeyCons(AmountRows(deps), u);
      var head: seq<Cents> := if deps[0].userId == u then [deps[0].amount] else [];
      TotalAppend(head, UserAmounts(deps[1..], u));
    }
  }

  /** `GET /my-summary`: the caller's expenses and deposits over every group,
      a missing (NULL) sum read as 0. */
  function PersonalSummary(db: Database, u: UserId): (r: Totals)
    ensures r.totalSpent == SumWhere(CostRows(db.expenses), u)
    ensures r.totalDeposited == SumWhere(AmountRows(db.deposits), u)
    ensures !HasKey(CostRows(db.expenses), u) ==> r.totalSpent == 0
    ensures !HasKey(AmountRows(db.deposits), u) ==> r.totalDeposited == 0
    ensures r.balance == r.totalDeposited - r.totalSpent
  {
    UserCostsTotal(db.expenses, u);
    UserAmountsTotal(db.deposits, u);
    NullableSumOrZero(UserCosts(db.expenses, u));
    NullableSumOrZero(UserAmounts(db.deposits, u));
    var totalSpent := NullableSum(UserCosts(db.expenses, u)).GetOr(0);
    var totalDeposited := NullableSum(UserAmounts(db.deposits, u)).GetOr(0);
    Totals(totalSpent, totalDeposited, totalDeposited - totalSpent)
  }

  // ---------------------------------------------------------------------
  // Event summary

  /** One row of `GET /admin/event-summary`; `lastUpdated` is NULL for an
      event without expenses. */
  datatype EventSummaryRow = EventSummaryRow(
    eventId: EventId, eventName: string, locationName: string, groupName: string,
    totalQuantity: int, totalExpense: Cents, lastUpdated: Option<int>)

  /** The expenses on event `ev`, the right side of the LEFT JOIN. */
  function ExpensesOfEvent(exps: seq<ExpenseRow>, ev: EventId): (r: seq<ExpenseRow>)
    ensures forall x :: x in r <==> x in exps && x.eventId == ev
  {
    if exps == [] then []
    else
      assert forall i :: 1 <= i < |exps| ==> exps[i] == exps[1..][i - 1];
      (if exps[0].eventId == ev then [exps[0]] else []) + ExpensesOfEvent(exps[1..], ev)
  }

  function Quantities(exps: seq<ExpenseRow>): (r: seq<int>)
    ensures |r| == |exps| && forall i :: 0 <= i < |exps| ==> r[i] == exps[i].quantity
  {
    if exps == [] then [] else [exps[0].quantity] + Quantities(exps[1..])
  }

  function Costs(exps: seq<ExpenseRow>): (r: seq<Cents>)
    ensures |r| == |exps| && forall i :: 0 <= i < |exps| ==> r[i] == exps[i].totalCost
  {
    if exps == [] then [] else [exps[0].totalCost] + Costs(exps[1..])
  }

  function Timestamps(exps: seq<ExpenseRow>): (r: seq<int>)
    ensures |r| == |exps| && forall i :: 0 <= i < |exps| ==> r[i] == exps[i].timestamp
  {
    if exps == [] then [] else [exps[0].timestamp] + Timestamps(exps[1..])
  }

  /** The aggregate row of one event: `COALESCE(SUM(...), 0)` for quantity
      and cost, `MAX(expense_timestamp)` for the last update. */
  function EventSummaryOf(db: Database, e: EventRow, groupName: string): (r: EventSummaryRow)
    ensures r.eventId == e.eventId && r.eventName == e.eventName && r.locationName == e.locationName && r.groupName == groupName
    ensures r.totalQuantity == Total(Quantities(ExpensesOfEvent(db.expenses, e.eventId)))
    ensures r.totalExpense == Total(Costs(ExpensesOfEvent(db.expenses, e.eventId)))
    ensures r.lastUpdated.None? <==> ExpensesOfEvent(db.expenses, e.eventId) == []
    ensures r.lastUpdated.Some? ==>
      r.lastUpdated.value in Timestamps(ExpensesOfEvent(db.expenses, e.eventId)) &&
      forall i :: 0 <= i < |ExpensesOfEvent(db.expenses, e.eventId)| ==>
        ExpensesOfEvent(db.expenses, e.eventId)[i].timestamp <= r.lastUpdated.value
  {
    var exs := ExpensesOfEvent(db.expenses, e.eventId);
    NullableSumOrZero(Quantities(exs));
    NullableSumOrZero(Costs(exs));
    var last := NullableMax(Timestamps(exs));
    EventSummaryRow(e.eventId, e.eventName, e.locationName, groupName,
                    NullableSum(Quantities(exs)).GetOr(0), NullableSum(Costs(exs)).GetOr(0), last)
  }

  /** The name of the first group row with id `g`. */
  function GroupNameOf(groups: seq<GroupRow>, g: GroupId): (r: Option<string>)
    ensures r.None? <==> forall x :: x in groups ==> x.groupId != g
    ensures r.Some? ==> GroupRow(g, r.value) in groups
  {
    if groups == [] then None
    else if groups[0].groupId == g then Some(groups[0].groupName)
    else
      assert forall i :: 1 <= i < |groups| ==> groups[i] == groups[1..][i - 1];
      GroupNameOf(groups[1..], g)
  }

  /** Event `e` is on the itinerary of a group in `ids` that has a row in
      `groups`. */
  predicate InScope(db: Database, ids: set<GroupId>, e: EventRow) {
    e.groupId in ids && GroupNameOf(db.groups, e.groupId).Some?
  }

  /** The aggregate row of an event in scope. */
  function ScopedRow(db: Database, e: EventRow): EventSummaryRow
    requires GroupNameOf(db.groups, e.groupId).Some?
  {
    EventSummaryOf(db, e, GroupNameOf(db.groups, e.groupId).value)
  }

  /** The grouped rows before `ORDER BY`: one per event on the itinerary of
      a group in `ids`. */
  function EventSummaries(db: Database, events: seq<EventRow>, ids: set<GroupId>): (r: seq<EventSummaryRow>)
    ensures forall x :: x in r <==> exists e :: e in events && InScope(db, ids, e) && x == ScopedRow(db, e)
  {
    if events == [] then []
    else
      var e := events[0];
      var rest := EventSummaries(db, events[1..], ids);
      assert forall x :: x in events <==> x == e || x in events[1..];
      (if InScope(db, ids, e) then [ScopedRow(db, e)] else []) + rest
  }

  lemma {:induction false} EventSummariesNoGroups(db: Database, events: seq<EventRow>)
    ensures EventSummaries(db, events, {}) == []
  {
    if events != [] {
      EventSummariesNoGroups(db, events[1..]);
    }
  }

  /** `MAX(ex.expense_timestamp) DESC`: later first, NULL last. */
  predicate LaterOrNull(a: Option<int>, b: Option<int>) {
    match (a, b)
    case (Some(s), Some(t)) => s >= t
    case (Some(_), None) => true
    case (None, Some(_)) => false
    case (None, None) => true
  }

  /** `ORDER BY MAX(ex.expense_timestamp) DESC, g.group_name, e.event_name`. */
  predicate SummaryBefore(x: EventSummaryRow, y: EventSummaryRow) {
    if x.lastUpdated != y.lastUpdated then LaterOrNull(x.lastUpdated, y.lastUpdated)
    else if x.groupName != y.groupName then LexLessEq(x.groupName, y.groupName)
    else LexLessEq(x.eventName, y.eventName)
  }

  lemma SummaryBeforeTotal()
    ensures TotalOrder(SummaryBefore)
  {
    forall x: EventSummaryRow, y: EventSummaryRow ensures SummaryBefore(x, y) || SummaryBefore(y, x) {
      LexTotal(x.groupName, y.groupName);
      LexTotal(x.eventName, y.eventName);
    }
  }

  lemma LaterOrNullTrans(a: Option<int>, b: Option<int>, c: Option<int>)
    requires LaterOrNull(a, b) && LaterOrNull(b, c)
    ensures LaterOrNull(a, c)
  {
  }

  lemma LaterOrNullAntisym(a: Option<int>, b: Option<int>)
    requires LaterOrNull(a, b) && LaterOrNull(b, a)
    ensures a == b
  {
  }

  /** The event-summary row order chains. */
  lemma SummaryBeforeTrans(x: EventSummaryRow, y: EventSummaryRow, z: EventSummaryRow)
    requires SummaryBefore(x, y) && SummaryBefore(y, z)
    ensures SummaryBefore(x, z)
  {
    if x.lastUpdated != y.lastUpdated || y.lastUpdated != z.lastUpdated {
      if x.lastUpdated != y.lastUpdated && y.lastUpdated != z.lastUpdated {
        LaterOrNullTrans(x.lastUpdated, y.lastUpdated, z.lastUpdated);
        if x.lastUpdated == z.lastUpdated {
          LaterOrNullAntisym(x.lastUpdated, y.lastUpdated);
        }
      }
    } else if x.groupName != y.groupName || y.groupName != z.groupName {
      if x.groupName != y.groupName && y.groupName != z.groupName {
        LexTrans(x.groupName, y.groupName, z.groupName);
        if x.groupName == z.groupName {
          LexAntisym(x.groupName, y.groupName);
        }
      }
    } else {
      LexTrans(x.eventName, y.eventName, z.eventName);
    }
  }

  lemma SummaryBeforeTransitive()
    ensures Transitive(SummaryBefore)
  {
    forall x: EventSummaryRow, y: EventSummaryRow, z: EventSummaryRow | SummaryBefore(x, y) && SummaryBefore(y, z)
      ensures SummaryBefore(x, z)
    {
      SummaryBeforeTrans(x, y, z);
    }
  }

  /** `GET /admin/event-summary`. */
  function EventSummary(db: Database, a: UserId): (r: seq<EventSummaryRow>)
    ensures AdminGroups(db, a) == [] ==> r == []
    ensures multiset(r) == multiset(EventSummaries(db, db.events, GroupIdSet(AdminGroups(db, a))))
    ensures Sorted(SummaryBefore, r)
    ensures forall i, j :: 0 <= i < j < |r| ==> SummaryBefore(r[i], r[j])
  {
    if |AdminGroups(db, a)| == 0 then
      assert GroupIdSet(AdminGroups(db, a)) == {};
      EventSummariesNoGroups(db, db.events);
      []
    else
      var rows := EventSummaries(db, db.events, GroupIdSet(AdminGroups(db, a)));
      SummaryBeforeTotal();
      SortBySorted(SummaryBefore, rows);
      SummaryBeforeTransitive();
      SortedPairwise(SummaryBefore, SortBy(SummaryBefore, rows));
      SortBy(SummaryBefore, rows)
  }

  /** Zero fill: an event of an admin group without expenses still has its
      row, with zero quantity and cost and no last update. */
  lemma {:induction false} EventSummaryZeroFill(db: Database, a: UserId, e: EventRow)
    requires e in db.events && e.groupId in GroupIdSet(AdminGroups(db, a))
    requires forall x :: x in db.expenses ==> x.eventId != e.eventId
    ensures exists row :: (row in EventSummary(db, a) && row.eventId == e.eventId &&
                           row.totalQuantity == 0 && row.totalExpense == 0 && row.lastUpdated == None)
  {
    var ids := GroupIdSet(AdminGroups(db, a));
    AdminGroupHasName(db, a, e.groupId);
    NoExpensesOfEvent(db.expenses, e.eventId);
    var row := ScopedRow(db, e);
    assert InScope(db, ids, e);
    assert row in EventSummaries(db, db.events, ids);
    assert row in multiset(EventSummary(db, a));
  }

  /** Every admin group of the caller has a row in `groups`. */
  lemma {:induction false} AdminGroupHasName(db: Database, a: UserId, g: GroupId)
    requires g in GroupIdSet(AdminGroups(db, a))
    ensures GroupNameOf(db.groups, g).Some?
  {
    var x :| x in AdminGroups(db, a) && x.groupId == g;
    assert x in db.groups;
  }

  lemma {:induction false} NoExpensesOfEvent(exps: seq<ExpenseRow>, ev: EventId)
    requires forall x :: x in exps ==> x.eventId != ev
    ensures ExpensesOfEvent(exps, ev) == []
  {
    if exps != [] {
      assert exps[0] in exps;
      assert forall x :: x in exps[1..] ==> x in exps;
      NoExpensesOfEvent(exps[1..], ev);
    }
  }

  // ---------------------------------------------------------------------
  // Access checks

  datatype Status = Ok | Created | BadRequest | NotFound | Forbidden

  /** Row `k` is the first membership row of `u` in `g`. */
  predicate FirstMembershipAt(ugs: seq<UserGroupRow>, u: UserId, g: GroupId, k: int) {
    0 <= k < |ugs| && ugs[k].userId == u && ugs[k].groupId == g &&
    forall j :: 0 <= j < k ==> ugs[j].userId != u || ugs[j].groupId != g
  }

  /** `SELECT role FROM users_groups WHERE user_id = u AND group_id = g`
      through `getAsync`: the role of the first such row. */
  function RoleOf(ugs: seq<UserGroupRow>, u: UserId, g: GroupId): (r: Option<string>)
    ensures r.None? <==> forall i :: 0 <= i < |ugs| ==> ugs[i].userId != u || ugs[i].groupId != g
    ensures r.Some? ==> exists k :: FirstMembershipAt(ugs, u, g, k) && ugs[k].role == r.value
  {
    if ugs == [] then None
    else if ugs[0].userId == u && ugs[0].groupId == g then
      assert FirstMembershipAt(ugs, u, g, 0);
      Some(ugs[0].role)
    else
      var r := RoleOf(ugs[1..], u, g);
      assert forall i :: 1 <= i < |ugs| ==> ugs[i] == ugs[1..][i - 1];
      assert r.Some? ==> exists k :: FirstMembershipAt(ugs, u, g, k) && ugs[k].role == r.value by {
        if r.Some? {
          var k :| FirstMembershipAt(ugs[1..], u, g, k) && ugs[1..][k].role == r.value;
          assert FirstMembershipAt(ugs, u, g, k + 1);
        }
      }
      r
  }

  /** `!adminRole || adminRole.role !== 'admin'` is false. */
  predicate IsAdminOf(ugs: seq<UserGroupRow>, u: UserId, g: GroupId) {
    RoleOf(ugs, u, g) == Some(AdminRole)
  }

  /** When nobody is listed twice in a group, `u` administers `g` exactly
      when some membership row says so. */
  lemma {:induction false} IsAdminOfUnique(ugs: seq<UserGroupRow>, u: UserId, g: GroupId)
    requires UniqueMemberships(ugs)
    ensures IsAdminOf(ugs, u, g) <==> UserGroupRow(u, g, AdminRole) in ugs
  {
    if UserGroupRow(u, g, AdminRole) in ugs {
      var k :| 0 <= k < |ugs| && ugs[k] == UserGroupRow(u, g, AdminRole);
      var r := RoleOf(ugs, u, g);
      var k' :| FirstMembershipAt(ugs, u, g, k') && ugs[k'].role == r.value;
      assert k' <= k;
      assert k' == k;
    }
  }

  /** The guard shared by event details and deposit edit and delete: the
      record's owning group is found (else 404) and the caller is its admin
      (else 403). */
  function AccessCheck(ugs: seq<UserGroupRow>, caller: UserId, owner: Option<GroupId>): (r: Status)
    ensures r == NotFound <==> owner.None?
    ensures r == Forbidden <==> owner.Some? && !IsAdminOf(ugs, caller, owner.value)
    ensures r == Ok <==> owner.Some? && IsAdminOf(ugs, caller, owner.value)
    ensures r in {Ok, NotFound, Forbidden}
  {
    if owner.None? then NotFound
    else if !IsAdminOf(ugs, caller, owner.value) then Forbidden
    else Ok
  }

  // ---------------------------------------------------------------------
  // Event details

  /** The owning group of the first event row with id `ev`. */
  function EventGroupOf(events: seq<EventRow>, ev: EventId): (r: Option<GroupId>)
    ensures r.None? <==> forall e :: e in events ==> e.eventId != ev
    ensures r.Some? ==> exists e :: e in events && e.eventId == ev && e.groupId == r.value
  {
    if events == [] then None
    else if events[0].eventId == ev then Some(events[0].groupId)
    else
      assert forall i :: 1 <= i < |events| ==> events[i] == events[1..][i - 1];
      EventGroupOf(events[1..], ev)
  }

  /** One row of `GET /event/:eventId/details`. */
  datatype ExpenseDetail = ExpenseDetail(expenseId: int, username: string, quantity: int, totalCost: Cents, timestamp: int)

  /** `expenses ex JOIN users u ... WHERE ex.event_id = ev`: an expense
      whose user is gone drops out of the join. */
  function DetailRows(usernames: map<UserId, string>, exps: seq<ExpenseRow>, ev: EventId): (r: seq<ExpenseDetail>)
    ensures forall d :: d in r <==> exists x :: x in exps && x.eventId == ev && x.userId in usernames &&
                                         d == ExpenseDetail(x.expenseId, usernames[x.userId], x.quantity, x.totalCost, x.timestamp)
  {
    if exps == [] then []
    else
      var x := exps[0];
      assert forall i :: 1 <= i < |exps| ==> exps[i] == exps[1..][i - 1];
      (if x.eventId == ev && x.userId in usernames
       then [ExpenseDetail(x.expenseId, usernames[x.userId], x.quantity, x.totalCost, x.timestamp)] else [])
      + DetailRows(usernames, exps[1..], ev)
  }

  /** `ORDER BY ex.expense_timestamp DESC`. */
  predicate DetailBefore(x: ExpenseDetail, y: ExpenseDetail) {
    x.timestamp >= y.timestamp
  }

  datatype Reply<T> = Denied(status: Status) | Served(body: T)

  /** `GET /event/:eventId/details`: 404 for an unknown event, 403 unless
      the caller administers the event's group, else the event's expenses,
      latest first. */
  function EventDetails(db: Database, caller: UserId, ev: EventId): (r: Reply<seq<ExpenseDetail>>)
    ensures r.Denied? <==> AccessCheck(db.usersGroups, caller, EventGroupOf(db.events, ev)) != Ok
    ensures r.Denied? ==> r.status == AccessCheck(db.usersGroups, caller, EventGroupOf(db.events, ev))
    ensures r.Served? ==> multiset(r.body) == multiset(DetailRows(db.usernames, db.expenses, ev)) && Sorted(DetailBefore, r.body)
    ensures r.Served? ==> forall i, j :: 0 <= i < j < |r.body| ==> r.body[i].timestamp >= r.body[j].timestamp
  {
    var s := AccessCheck(db.usersGroups, caller, EventGroupOf(db.events, ev));
    if s != Ok then Denied(s)
    else
      SortBySorted(DetailBefore, DetailRows(db.usernames, db.expenses, ev));
      SortedPairwise(DetailBefore, SortBy(DetailBefore, DetailRows(db.usernames, db.expenses, ev)));
      Served(SortBy(DetailBefore, DetailRows(db.usernames, db.expenses, ev)))
  }

  // ---------------------------------------------------------------------
  // Deposits

  /** The body of `POST /deposits`; an absent field is `None`. */
  datatype DepositRequest = DepositRequest(userId: Option<UserId>, groupId: Option<GroupId>, amount: Option<Cents>)

  /** JavaScript `!x` on a numeric field: absent or zero. */
  predicate Falsy(x: Option<int>) {
    x.None? || x.value == 0
  }

  /** The amount check of both create and edit:
      `!amount || amount <= 0` rejects. */
  predicate ValidAmount(amount: Option<Cents>) {
    !Falsy(amount) && amount.value > 0
  }

  /** The status of `POST /deposits`: 400 unless user, group and a positive
      amount are given, else 201. There is no check that the caller
      administers the group. */
  function CreateDepositStatus(req: DepositRequest): (r: Status)
    ensures r == Created <==> req.userId.Some? && req.userId.value != 0 &&
                              req.groupId.Some? && req.groupId.value != 0 &&
                              req.amount.Some? && req.amount.value > 0
    ensures r in {Created, BadRequest}
  {
    if Falsy(req.userId) || Falsy(req.groupId) || !ValidAmount(req.amount) then BadRequest else Created
  }

  /** `SELECT group_id FROM deposits WHERE deposit_id = id`. */
  function DepositGroupOf(deps: seq<DepositRow>, id: DepositId): (r: Option<GroupId>)
    ensures r.None? <==> forall d :: d in deps ==> d.depositId != id
    ensures r.Some? ==> exists d :: d in deps && d.depositId == id && d.groupId == r.value
  {
    if deps == [] then None
    else if deps[0].depositId == id then Some(deps[0].groupId)
    else
      assert forall i :: 1 <= i < |deps| ==> deps[i] == deps[1..][i - 1];
      DepositGroupOf(deps[1..], id)
  }

  /** The status of `PUT /deposits/:depositId`: the amount is checked
      first (400), then the deposit must exist (404) and the caller must
      administer its group (403). */
  function EditDepositStatus(db: Database, caller: UserId, id: DepositId, amount: Option<Cents>): (r: Status)
    ensures r == BadRequest <==> !(amount.Some? && amount.value > 0)
    ensures r != BadRequest ==> r == AccessCheck(db.usersGroups, caller, DepositGroupOf(db.deposits, id))
    ensures r == Ok ==> exists d :: d in db.deposits && d.depositId == id && IsAdminOf(db.usersGroups, caller, d.groupId)
  {
    if !ValidAmount(amount) then BadRequest
    else AccessCheck(db.usersGroups, caller, DepositGroupOf(db.deposits, id))
  }

  /** The status of `DELETE /deposits/:depositId`: 404, then 403, as for
      edit but without an amount. */
  function DeleteDepositStatus(db: Database, caller: UserId, id: DepositId): (r: Status)
    ensures r == NotFound <==> forall d :: d in db.deposits ==> d.depositId != id
    ensures r == Ok ==> exists d :: d in db.deposits && d.depositId == id && IsAdminOf(db.usersGroups, caller, d.groupId)
    ensures r in {Ok, NotFound, Forbidden}
  {
    AccessCheck(db.usersGroups, caller, DepositGroupOf(db.deposits, id))
  }

  /** `UPDATE deposits SET amount = x WHERE deposit_id = id`. */
  function SetAmount(deps: seq<DepositRow>, id: DepositId, x: Cents): (r: seq<DepositRow>)
    ensures |r| == |deps|
    ensures forall i :: 0 <= i < |deps| ==> r[i] == if deps[i].depositId == id then deps[i].(amount := x) else deps[i]
  {
    if deps == [] then []
    else [if deps[0].depositId == id then deps[0].(amount := x) else deps[0]] + SetAmount(deps[1..], id, x)
  }

  /** `DELETE FROM deposits WHERE deposit_id = id`. */
  function RemoveDeposit(deps: seq<DepositRow>, id: DepositId): (r: seq<DepositRow>)
    ensures IsSubsequence(r, deps)
    ensures forall d :: d in r <==> d in deps && d.depositId != id
  {
    Filter((d: DepositRow) => d.depositId != id, deps)
  }

  /** The id of a new deposit: a fresh positive id, one more than the
      largest id in use when that is positive, 1 for an empty table. */
  function NextDepositId(deps: seq<DepositRow>): (r: DepositId)
    ensures r >= 1
    ensures forall d :: d in deps ==> d.depositId < r
    ensures deps == [] ==> r == 1
    ensures r == 1 || exists d :: d in deps && r == d.depositId + 1
  {
    if deps == [] then 1
    else
      var rest := NextDepositId(deps[1..]);
      assert forall d :: d in deps ==> d == deps[0] || d in deps[1..];
      if deps[0].depositId + 1 > rest then deps[0].depositId + 1 else rest
  }

  /** Changing a deposit of another group leaves the group untouched. */
  lemma {:induction false} SetAmountOtherGroup(deps: seq<DepositRow>, id: DepositId, x: Cents, g: GroupId)
    requires forall d :: d in deps && d.depositId == id ==> d.groupId != g
    ensures DepositsOfGroup(SetAmount(deps, id, x), g) == DepositsOfGroup(deps, g)
  {
    if deps != [] {
      assert forall d :: d in deps[1..] ==> d in deps;
      SetAmountOtherGroup(deps[1..], id, x, g);
      assert SetAmount(deps, id, x)[1..] == SetAmount(deps[1..], id, x);
    }
  }

  /** Deleting a deposit of another group leaves the group untouched. */
  lemma {:induction false} RemoveOtherGroup(deps: seq<DepositRow>, id: DepositId, g: GroupId)
    requires forall d :: d in deps && d.depositId == id ==> d.groupId != g
    ensures DepositsOfGroup(RemoveDeposit(deps, id), g) == DepositsOfGroup(deps, g)
  {
    if deps != [] {
      assert forall d :: d in deps[1..] ==> d in deps;
      RemoveOtherGroup(deps[1..], id, g);
    }
  }

  /** Editing or deleting a deposit changes the group summary of no other
      group. */
  lemma DepositWriteOtherGroup(db: Database, id: DepositId, x: Cents, g: GroupId)
    requires forall d :: d in db.deposits && d.depositId == id ==> d.groupId != g
    ensures GroupRoute(db.(deposits := SetAmount(db.deposits, id, x)), g) == GroupRoute(db, g)
    ensures GroupRoute(db.(deposits := RemoveDeposit(db.deposits, id)), g) == GroupRoute(db, g)
  {
    SetAmountOtherGroup(db.deposits, id, x, g);
    RemoveOtherGroup(db.deposits, id, g);
    assert GroupDepositRows(db.(deposits := SetAmount(db.deposits, id, x)), g) == GroupDepositRows(db, g);
    assert GroupDepositRows(db.(deposits := RemoveDeposit(db.deposits, id)), g) == GroupDepositRows(db, g);
  }

  /** Deposit ids identify their rows. */
  predicate DistinctDepositIds(deps: seq<DepositRow>) {
    forall i, j :: 0 <= i < j < |deps| ==> deps[i].depositId != deps[j].depositId
  }

  lemma SetAmountKeepsIds(deps: seq<DepositRow>, id: DepositId, x: Cents)
    requires DistinctDepositIds(deps)
    ensures DistinctDepositIds(SetAmount(deps, id, x))
  {
  }

  lemma RemoveKeepsIds(deps: seq<DepositRow>, id: DepositId)
    requires DistinctDepositIds(deps)
    ensures DistinctDepositIds(RemoveDeposit(deps, id))
  {
    var r := RemoveDeposit(deps, id);
    SubsequenceDistinct(DepositIds(r), DepositIds(deps)) by {
      SubsequenceIds(r, deps);
    }
  }

  function DepositIds(deps: seq<DepositRow>): (r: seq<DepositId>)
    ensures |r| == |deps| && forall i :: 0 <= i < |deps| ==> r[i] == deps[i].depositId
  {
    if deps == [] then [] else [deps[0].depositId] + DepositIds(deps[1..])
  }

  lemma {:induction false} SubsequenceIds(sub: seq<DepositRow>, s: seq<DepositRow>)
    requires IsSubsequence(sub, s)
    ensures IsSubsequence(DepositIds(sub), DepositIds(s))
  {
    if sub != [] {
      assert DepositIds(s)[1..] == DepositIds(s[1..]);
      assert DepositIds(sub)[1..] == DepositIds(sub[1..]);
      if sub[0] == s[0] && IsSubsequence(sub[1..], s[1..]) {
        SubsequenceIds(sub[1..], s[1..]);
      } else {
        SubsequenceIds(sub, s[1..]);
      }
    }
  }

  /** The deposit routes over the database they change. */
  class DepositRoutes {
    var db: Database

    /** Deposit ids are a primary key. */
    ghost predicate Valid()
      reads this
    {
      DistinctDepositIds(db.deposits)
    }

    constructor(initial: Database)
      requires DistinctDepositIds(initial.deposits)
      ensures db == initial && Valid()
    {
      db := initial;
    }

    /** `POST /deposits`: on 201 the new deposit, stamped `now`, is appended
        under a fresh id; otherwise nothing changes. */
    method CreateDeposit(req: DepositRequest, now: int) returns (status: Status)
      requires Valid()
      modifies this
      ensures Valid()
      ensures status == CreateDepositStatus(req)
      ensures status == Created ==>
        db == old(db).(deposits := old(db.deposits) +
          [DepositRow(NextDepositId(old(db.deposits)), req.userId.value, req.groupId.value, req.amount.value, now)])
      ensures status != Created ==> db == old(db)
    {
      status := CreateDepositStatus(req);
      if status == Created {
        var row := DepositRow(NextDepositId(db.deposits), req.userId.value, req.groupId.value, req.amount.value, now);
        db := db.(deposits := db.deposits + [row]);
      }
    }

    /** `PUT /deposits/:depositId`: on 200 only that deposit's amount
        changes; otherwise nothing does. */
    method EditDeposit(caller: UserId, id: DepositId, amount: Option<Cents>) returns (status: Status)
      requires Valid()
      modifies this
      ensures Valid()
      ensures status == EditDepositStatus(old(db), caller, id, amount)
      ensures status == Ok ==> db == old(db).(deposits := SetAmount(old(db.deposits), id, amount.value))
      ensures status != Ok ==> db == old(db)
    {
      status := EditDepositStatus(db, caller, id, amount);
      if status == Ok {
        SetAmountKeepsIds(db.deposits, id, amount.value);
        db := db.(deposits := SetAmount(db.deposits, id, amount.value));
      }
    }

    /** `DELETE /deposits/:depositId`: on 200 only that deposit is gone;
        otherwise nothing changes. */
    method DeleteDeposit(caller: UserId, id: DepositId) returns (status: Status)
      requires Valid()
      modifies this
      ensures Valid()
      ensures status == DeleteDepositStatus(old(db), caller, id)
      ensures status == Ok ==> db == old(db).(deposits := RemoveDeposit(old(db.deposits), id))
      ensures status != Ok ==> db == old(db)
    {
      status := DeleteDepositStatus(db, caller, id);
      if status == Ok {
        RemoveKeepsIds(db.deposits, id);
        db := db.(deposits := RemoveDeposit(db.deposits, id));
      }
    }
  }

  // ---------------------------------------------------------------------
  // Deposits of an admin

  /** One row of `GET /deposits`. */
  datatype AdminDepositRow = AdminDepositRow(depositId: DepositId, amount: Cents, timestamp: int,
                                             userId: UserId, username: string, groupId: GroupId, groupName: string)

  /** `group_id IN (SELECT group_id FROM users_groups WHERE user_id = a AND
      role = 'admin')`. */
  predicate AdministeredBy(ugs: seq<UserGroupRow>, a: UserId, g: GroupId) {
    UserGroupRow(a, g, AdminRole) in ugs
  }

  /** Deposit `d` survives the joins and the filter of `GET /deposits`. */
  predicate ListedFor(db: Database, a: UserId, d: DepositRow) {
    AdministeredBy(db.usersGroups, a, d.groupId) && d.userId in db.usernames && GroupNameOf(db.groups, d.groupId).Some?
  }

  /** The joined row of a listed deposit. */
  function ListedRow(db: Database, d: DepositRow): AdminDepositRow
    requires d.userId in db.usernames && GroupNameOf(db.groups, d.groupId).Some?
  {
    AdminDepositRow(d.depositId, d.amount, d.timestamp, d.userId, db.usernames[d.userId], d.groupId, GroupNameOf(db.groups, d.groupId).value)
  }

  /** `deposits d JOIN users u JOIN groups g WHERE ...`. */
  function AdminDepositRows(db: Database, deps: seq<DepositRow>, a: UserId): (r: seq<AdminDepositRow>)
    ensures forall x :: x in r <==> exists d :: d in deps && ListedFor(db, a, d) && x == ListedRow(db, d)
  {
    if deps == [] then []
    else
      var d := deps[0];
      assert forall y :: y in deps <==> y == d || y in deps[1..];
      (if ListedFor(db, a, d) then [ListedRow(db, d)] else []) + AdminDepositRows(db, deps[1..], a)
  }

  /** `ORDER BY d.deposit_timestamp DESC`. */
  predicate DepositBefore(x: AdminDepositRow, y: AdminDepositRow) {
    x.timestamp >= y.timestamp
  }

  /** `GET /deposits`: the deposits to every group the caller administers,
      latest first. */
  function AdminDeposits(db: Database, a: UserId): (r: seq<AdminDepositRow>)
    ensures multiset(r) == multiset(AdminDepositRows(db, db.deposits, a))
    ensures Sorted(DepositBefore, r)
    ensures forall i, j :: 0 <= i < j < |r| ==> r[i].timestamp >= r[j].timestamp
  {
    SortBySorted(DepositBefore, AdminDepositRows(db, db.deposits, a));
    SortedPairwise(DepositBefore, SortBy(DepositBefore, AdminDepositRows(db, db.deposits, a)));
    SortBy(DepositBefore, AdminDepositRows(db, db.deposits, a))
  }
}
