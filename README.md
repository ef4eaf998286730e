# tour-app finances, expense form, itinerary pins and backup import — a Dafny model

tour-app runs group tours. Each group has an itinerary of days, locations and
events. Members log expenses against events, and administrators record
deposits. This project models five parts of it:

- **The finance routes** of the backend (`backend/routes/finances.js`):
  - the per-group summary, the administrator's master summary and the personal summary;
  - the event-based expense summary and the per-event expense details;
  - the deposit list, and the guards and table updates of deposit create, edit and delete.

  The database is a value of row lists (`Finances.Database`). Money is integer cents.
  The SQL aggregates are written out in `sql.dfy`: SUM, GROUP BY, nullable SUM and MAX,
  and first-row lookup. `ORDER BY` is an insertion sort under a total order, in `sorting.dfy`.
- **The administrator's batch-expense form** (`AdminAddExpense.jsx`).
  - It is a class `ExpenseForm` whose fields are the component's state.
  - Each handler is a method; `CanSubmit` is the submit guard.
  - The ghost invariant `Valid` says that only listed members of the selected group are selected, and none twice when the group lists each member once.
  - The state keeps the set of things the form offers: its admin groups, and the itineraries and member lists cached per group.
- **The event-expense page** (`EventExpenses.jsx`).
  - It is a class `EventExpensesPage` holding the rows, the search term and the details cache.
  - The case-insensitive search filter is the function `FilterSummary`.
  - The cache rules for opening a row and for refreshing it are the functions `OpenDetails` and `RefreshDetails`.
- **The map pins of the itinerary page** (`Itinerary.jsx`): `ActiveDayPins`.
- **The import of one backup table** (`backend/importBackup.js`).
  - The method `ImportTable` works on the parsed rows as an array, because `importBackup.js` mutates them in place.
  - The functions it is proved against: `ImportColumns` picks the columns, `Placeholders` builds the `VALUES` list, and `ImportPlan` gives the statement with one value list per row.

The itinerary's JSON shape shared by the form and the pins is in `tours.dfy`.
Generic sequence facts (filter, map, first match, distinctness) are in
`collections.dfy`. ASCII lower-casing, substring search and the decimal text of
ids are in `text.dfy`.

Where the header comment of a route and its code disagree, the model follows the
code:
- `GET /group/:groupId` is marked "ADMIN" but checks no role.
- `POST /deposits` checks no role either.

Both are modelled as written.

## Model

| member | source | states |
|---|---|---|
| Finances.JoinUsers | backend/routes/finances.js:13 | a row is in the join iff some membership of an existing user yields it, with that user's name and the membership's group and role |
| Finances.MembersOfGroup | backend/routes/finances.js:13 | exactly the joined rows of group g, kept in the order of the joined rows |
| Finances.MembersOfGroups | backend/routes/finances.js:40 | exactly the joined rows whose group is in the id list, kept in the order of the joined rows |
| Finances.MemberIds | backend/routes/finances.js:17-21 | the user ids of the members, position by position |
| Finances.CostRows | backend/routes/finances.js:14 | the (user, total cost) pair of each expense row, position by position |
| Finances.AmountRows | backend/routes/finances.js:15 | the (user, amount) pair of each deposit row, position by position |
| Finances.ExpensesOnEvents | backend/routes/finances.js:14 | exactly the expenses whose event is on the group's itinerary |
| Finances.DepositsOfGroup | backend/routes/finances.js:15 | exactly the deposits of group g |
| Finances.Summarize | backend/routes/finances.js:20 | keeps the member's id, name and role; balance is deposited minus spent |
| Finances.GroupUserSummaries | backend/routes/finances.js:17-21 | one summary per member, in the order of the member list; each side is the first grouped row of that user, or 0 |
| Finances.GroupUserSummariesSums | backend/routes/finances.js:14-21 | over GROUP BY rows, each member's spent and deposited are the sums of that user's raw rows |
| Finances.GroupRouteUserSummaries | backend/routes/finances.js:13-21 | every member of the group gets one summary, in the order of the member rows; spent is the user's cost on the group's events, and deposited is the user's deposits to the group |
| Finances.GroupUserSummariesTotals | backend/routes/finances.js:22-24 | the group totals are the sums over the member summaries |
| Finances.GroupRouteTotals | backend/routes/finances.js:22-24 | the group's spent and deposited are the sums of its members' sides and the balance is their difference; when member ids are distinct and every scoped expense and deposit is a member's, they are the direct sums of the group's rows |
| Finances.GroupRowsWithId | backend/routes/finances.js:32 | exactly the group rows with id g |
| Finances.AdminGroupsOf | backend/routes/finances.js:32 | a group row is listed iff some membership makes the caller admin of it |
| Finances.MasterUserSummaries | backend/routes/finances.js:45-52 | one summary per member of the group, in the order of the member list; its sides sum the keyed rows of that (group, user) |
| Finances.MasterEntriesIndex | backend/routes/finances.js:44-58 | the master report has one entry per admin group, in the same order |
| Finances.GroupsTotalsSnoc | backend/routes/finances.js:55-56 | adding one more group adds its totals to the running sums |
| Finances.FoldGroups | backend/routes/finances.js:42-59 | the loop yields the entries in group order, master spent and deposited equal the sums over the entries, and balance is their difference |
| Finances.AdminSummary | backend/routes/finances.js:29-60 | no admin groups give the zero report with no entries; otherwise the report of FoldGroups over the admin groups |
| Finances.MembershipCountOne | backend/routes/finances.js:45 | without repeated memberships, the (user, group) pair of a membership row is counted once |
| Finances.MembershipCountNone | backend/routes/finances.js:45 | a user with no membership row in g has count 0 |
| Finances.MembershipsOfSum | backend/routes/finances.js:38 | one expense joined with its user's memberships adds its cost once per listed membership in g |
| Finances.JoinedExpenseSum | backend/routes/finances.js:38 | a (group, user) sum of the keyed expense rows is the user's total cost over all events times the user's membership count in g |
| Finances.KeyedDepositSum | backend/routes/finances.js:39-48 | for a listed group, a (group, user) sum is the user's deposits to that group |
| Finances.MembersOfGroupsThenGroup | backend/routes/finances.js:40-45 | narrowing the members of the listed groups to one listed group gives that group's members |
| Finances.MasterEntryUserSummaries | backend/routes/finances.js:44-57 | an admin group's entry keeps its id and name, lists its members in the order of the member rows, and gives each as spent the user's cost over every event times the user's membership count in the group, and as deposited the user's deposits to the group; the group totals fold those summaries |
| Finances.MasterSpentIsUserWide | backend/routes/finances.js:38-49 | without repeated memberships, a member's spent side is the user's cost over every group's events, not only this group's |
| Finances.MemberCountOne | backend/routes/finances.js:45 | without repeated memberships, a listed member of g has count 1 |
| Finances.MasterEntryUserSpent | backend/routes/finances.js:47-49 | a member's spent side in the master entry is the user's membership count in the group times the user's total expense cost |
| Finances.MemberHasMembership | backend/routes/finances.js:13 | every listed member of g has a membership row in g |
| Finances.UserCostsTotal | backend/routes/finances.js:84 | the user's selected costs add up to that user's cost sum, and the selection is empty iff the user has no expense |
| Finances.UserAmountsTotal | backend/routes/finances.js:85 | the user's selected amounts add up to that user's deposit sum, and the selection is empty iff the user has no deposit |
| Finances.PersonalSummary | backend/routes/finances.js:84-89 | spent and deposited are the user's sums over every group (0 when there are no rows); balance is their difference |
| Finances.ExpensesOfEvent | backend/routes/finances.js:125 | exactly the expenses on event ev, in table order |
| Finances.Quantities | backend/routes/finances.js:118 | the quantities of the rows, position by position |
| Finances.Costs | backend/routes/finances.js:119 | the costs of the rows, position by position |
| Finances.Timestamps | backend/routes/finances.js:120 | the timestamps of the rows, position by position |
| Finances.EventSummaryOf | backend/routes/finances.js:112-127 | the event's id, name, location and group name; quantity and cost sums, 0 without expenses; latest timestamp, or None without expenses |
| Finances.GroupNameOf | backend/routes/finances.js:124 | None iff no group row has id g; otherwise some row with that id carries the name |
| Finances.EventSummaries | backend/routes/finances.js:121-127 | a row is produced iff it is the aggregate row of an event in scope |
| Finances.EventSummariesNoGroups | backend/routes/finances.js:106-126 | an empty group list gives no rows |
| Finances.SummaryBeforeTotal | backend/routes/finances.js:128 | the row order (latest first with missing last, then group name, then event name) relates any two rows one way or the other |
| Finances.SummaryBeforeTrans | backend/routes/finances.js:128 | the row order chains: a row before a second, and the second before a third, puts the first before the third |
| Finances.SummaryBeforeTransitive | backend/routes/finances.js:128 | the row order is transitive |
| Text.LexTrans | backend/routes/finances.js:128 | the text ordering of group and event names is transitive |
| Text.LexAntisym | backend/routes/finances.js:128 | texts ordered both ways are equal |
| Sorting.SortedPairwise | backend/routes/finances.js:128 | under a transitive order, a list in order by neighbours has every row before every later one |
| Finances.EventSummary | backend/routes/finances.js:96-131 | [] without admin groups; otherwise a permutation of the rows of the events in scope in which every row comes before every later one under the row order |
| Finances.EventSummaryZeroFill | backend/routes/finances.js:118-125 | an event of an admin group with no expenses still appears, with 0 quantity, 0 cost and no timestamp |
| Finances.AdminGroupHasName | backend/routes/finances.js:99-124 | every admin group of the caller has a group row, so its name is found |
| Finances.NoExpensesOfEvent | backend/routes/finances.js:125 | no expense on ev gives an empty right side of the LEFT JOIN |
| Finances.RoleOf | backend/routes/finances.js:155-158 | None iff the user has no membership in g; otherwise the role of the first such row |
| Finances.IsAdminOfUnique | backend/routes/finances.js:160 | without repeated memberships, the user is admin of g iff some membership row says so |
| Finances.AccessCheck | backend/routes/finances.js:151-162 | 404 when the owner is missing, otherwise 403 unless the caller is admin of it, otherwise 200 |
| Finances.EventGroupOf | backend/routes/finances.js:144-149 | None iff no event row has the id; otherwise the group of the first one |
| Finances.DetailRows | backend/routes/finances.js:164-173 | a detail is produced iff it is an expense on ev whose user exists, carrying that user's name |
| Finances.EventDetails | backend/routes/finances.js:139-177 | status as in AccessCheck for the event's group; on 200 a permutation of DetailRows in which no row is older than a later one |
| Finances.CreateDepositStatus | backend/routes/finances.js:68-71 | 400 iff user, group or amount is missing or zero, or the amount is not positive; otherwise 201 |
| Finances.DepositGroupOf | backend/routes/finances.js:222 | None iff no deposit has the id; otherwise the group of the first one |
| Finances.EditDepositStatus | backend/routes/finances.js:216-229 | 400 for a bad amount before any lookup, then 404 and 403 as in AccessCheck, otherwise 200 |
| Finances.DeleteDepositStatus | backend/routes/finances.js:246-253 | 404 and then 403 as in AccessCheck, otherwise 200 |
| Finances.SetAmount | backend/routes/finances.js:231 | same length; rows with the id get the amount, all else is kept |
| Finances.RemoveDeposit | backend/routes/finances.js:255 | exactly the rows without the id, in order |
| Finances.NextDepositId | backend/routes/finances.js:73 | at least 1 and greater than every existing id; 1 for an empty table; otherwise 1 or one more than an existing id |
| Finances.SetAmountOtherGroup | backend/routes/finances.js:231 | changing a deposit of another group keeps group g's deposit rows |
| Finances.RemoveOtherGroup | backend/routes/finances.js:255 | deleting a deposit of another group keeps group g's deposit rows |
| Finances.DepositWriteOtherGroup | backend/routes/finances.js:231-255 | editing or deleting a deposit of another group leaves g's group report unchanged |
| Finances.SetAmountKeepsIds | backend/routes/finances.js:231 | an update keeps deposit ids distinct |
| Finances.RemoveKeepsIds | backend/routes/finances.js:255 | a delete keeps deposit ids distinct |
| Finances.DepositIds | backend/routes/finances.js:73 | the ids of the deposits, position by position |
| Finances.SubsequenceIds | backend/routes/finances.js:255 | a subsequence of deposits has a subsequence of ids |
| Finances.DepositRoutes.constructor | backend/routes/finances.js:67 | the routes hold the given database, whose deposit ids are distinct |
| Finances.DepositRoutes.CreateDeposit | backend/routes/finances.js:67-74 | status as in CreateDepositStatus; on 201 one row with the next id is appended, otherwise nothing changes |
| Finances.DepositRoutes.EditDeposit | backend/routes/finances.js:211-232 | status as in EditDepositStatus; on 200 the amount is set, otherwise nothing changes; ids stay distinct |
| Finances.DepositRoutes.DeleteDeposit | backend/routes/finances.js:240-256 | status as in DeleteDepositStatus; on 200 the row is removed, otherwise nothing changes; ids stay distinct |
| Finances.AdminDepositRows | backend/routes/finances.js:188-200 | a row is listed iff it joins a deposit whose group the caller administers and whose user and group rows exist |
| Finances.AdminDeposits | backend/routes/finances.js:185-203 | a permutation of those rows in which no row is older than a later one |
| AddExpenseForm.AdminListings | frontend/src/pages/AdminAddExpense.jsx:56 | exactly the groups whose role is admin, in order |
| AddExpenseForm.NonAdminUsers | frontend/src/pages/AdminAddExpense.jsx:83 | exactly the users whose role is not admin, in order |
| AddExpenseForm.UserIdTexts | frontend/src/pages/AdminAddExpense.jsx:105 | the decimal text of each user's id, position by position |
| AddExpenseForm.UserIdTextsDistinct | frontend/src/pages/AdminAddExpense.jsx:105 | distinct user ids give distinct id texts |
| AddExpenseForm.Without | frontend/src/pages/AdminAddExpense.jsx:100 | drops every copy of the id and keeps every other element, with the same count and order |
| AddExpenseForm.WithoutAppended | frontend/src/pages/AdminAddExpense.jsx:100 | removing an id just appended to a list without it gives the list back |
| AddExpenseForm.Toggle | frontend/src/pages/AdminAddExpense.jsx:98-102 | the id is in the result iff it was not in the list before; other ids are kept with their counts; an absent id is appended |
| AddExpenseForm.ToggleTwice | frontend/src/pages/AdminAddExpense.jsx:98-102 | toggling an unselected id twice restores the selection exactly |
| AddExpenseForm.ToggleTwiceMembers | frontend/src/pages/AdminAddExpense.jsx:98-102 | toggling twice on a selection without repeats keeps the same multiset |
| AddExpenseForm.ToggleDistinct | frontend/src/pages/AdminAddExpense.jsx:98-102 | toggling keeps a selection free of repeats |
| AddExpenseForm.SelectAllUpdate | frontend/src/pages/AdminAddExpense.jsx:104-116 | unchecking gives []; checking gives a list as long as all ids, either those ids or the unchanged selection when the lengths already agree |
| AddExpenseForm.SelectAllSelectsEveryone | frontend/src/pages/AdminAddExpense.jsx:104-116 | for distinct ids and a valid selection, checking selects exactly every listed member |
| AddExpenseForm.SelectAllCheckedIff | frontend/src/pages/AdminAddExpense.jsx:245 | for distinct selections of listed members, the box shows checked iff there are members and every one is selected |
| AddExpenseForm.LocationsOfDay | frontend/src/pages/AdminAddExpense.jsx:94 | [] when no day has the id; otherwise the locations of the first such day, or [] |
| AddExpenseForm.EventsOfLocation | frontend/src/pages/AdminAddExpense.jsx:95 | [] when no location has the id; otherwise the events of the first such location, or [] |
| AddExpenseForm.ExpenseForm.constructor | frontend/src/pages/AdminAddExpense.jsx:31-41 | empty lists and caches, nothing selected, quantity 1, no cost |
| AddExpenseForm.ExpenseForm.LoadGroups | frontend/src/pages/AdminAddExpense.jsx:52-65 | on success the groups become the admin listings of the response; on failure nothing changes |
| AddExpenseForm.ExpenseForm.HandleGroupChange | frontend/src/pages/AdminAddExpense.jsx:67-91 | selects the group and clears day, location, event and members; fetches each uncached part only for a nonempty id; the users request is skipped after a failed itinerary request; caches the itinerary, and the users without admins |
| AddExpenseForm.ExpenseForm.SelectDay | frontend/src/pages/AdminAddExpense.jsx:187 | sets the day and leaves the rest of the form as it was |
| AddExpenseForm.ExpenseForm.SelectLocation | frontend/src/pages/AdminAddExpense.jsx:204 | sets the location and leaves the rest of the form as it was |
| AddExpenseForm.ExpenseForm.SelectEvent | frontend/src/pages/AdminAddExpense.jsx:221 | sets the event and leaves the rest of the form as it was |
| AddExpenseForm.ExpenseForm.SetQuantity | frontend/src/pages/AdminAddExpense.jsx:291 | sets the quantity and leaves the rest of the form as it was |
| AddExpenseForm.ExpenseForm.SetActualCost | frontend/src/pages/AdminAddExpense.jsx:306 | sets the cost and leaves the rest of the form as it was |
| AddExpenseForm.ExpenseForm.ToggleUser | frontend/src/pages/AdminAddExpense.jsx:98-102 | the selection becomes Toggle of it; the invariant is kept for a listed member's id |
| AddExpenseForm.ExpenseForm.SelectAllUsers | frontend/src/pages/AdminAddExpense.jsx:104-116 | the selection becomes SelectAllUpdate over the listed ids; the invariant is kept; when the group lists each member once, checking the box selects exactly the listed members |
| AddExpenseForm.ExpenseForm.Submit | frontend/src/pages/AdminAddExpense.jsx:118-143 | a request is sent iff there is an event, at least one member, a quantity and a cost, and it carries them; if the server accepts it, event, members, quantity and cost are reset while group, day and location are kept; otherwise nothing changes |
| EventExpenses.FilterSummary | frontend/src/pages/EventExpenses.jsx:126-130 | exactly the rows the search matches, in summary order and with their counts |
| EventExpenses.MatchesSearchIff | frontend/src/pages/EventExpenses.jsx:127-129 | a row matches iff the lower-cased term occurs in its lower-cased event, group or location name |
| EventExpenses.EmptySearchKeepsAll | frontend/src/pages/EventExpenses.jsx:126-130 | an empty search shows the whole summary |
| EventExpenses.OpenDetails | frontend/src/pages/EventExpenses.jsx:81-92 | a cached entry is kept, whatever the server would say; an uncached one is added on success; no other key changes |
| EventExpenses.RefreshDetails | frontend/src/pages/EventExpenses.jsx:94-104 | on success the answer replaces the entry; on failure the cache is kept; no other key changes |
| EventExpenses.EventExpensesPage.constructor | frontend/src/pages/EventExpenses.jsx:57-59 | no rows, empty cache, empty search |
| EventExpenses.EventExpensesPage.FetchSummary | frontend/src/pages/EventExpenses.jsx:64-73 | on success the rows become the response; otherwise they are kept |
| EventExpenses.EventExpensesPage.SetSearchTerm | frontend/src/pages/EventExpenses.jsx:157 | sets the term and keeps rows and cache |
| EventExpenses.EventExpensesPage.AccordionChange | frontend/src/pages/EventExpenses.jsx:81-92 | a request is made iff the event is not cached; the cache becomes OpenDetails |
| EventExpenses.EventExpensesPage.RefreshDetailsForEvent | frontend/src/pages/EventExpenses.jsx:94-104 | the cache becomes RefreshDetails |
| Itinerary.LocatedOnly | frontend/src/pages/Itinerary.jsx:81-82 | exactly the locations with both coordinates, in the day's order |
| Itinerary.PinsOf | frontend/src/pages/Itinerary.jsx:81-90 | one pin per located location, in order; each has the location's id, coordinates, order and name, and is named after its first event or else the location |
| Itinerary.PinsMembers | frontend/src/pages/Itinerary.jsx:81-90 | a pin is shown iff it is the pin of a located location of the day |
| Itinerary.ActiveDayPins | frontend/src/pages/Itinerary.jsx:78-91 | [] without an itinerary or for an index with no day; otherwise the pins of that day's locations, or [] |
| ImportBackup.Keys | backend/importBackup.js:48 | the field names of a row, in order |
| ImportBackup.Get | backend/importBackup.js:68 | None iff the row has no field of that name; a found value belongs to that name in the row |
| ImportBackup.SetField | backend/importBackup.js:57 | the field reads the new value afterwards; every other field reads as before |
| ImportBackup.SetFieldKeys | backend/importBackup.js:57 | setting a field keeps the key order, or appends the key when it is new |
| ImportBackup.BackupColumns | backend/importBackup.js:48-51 | exactly the first row's keys that are table columns, in key order |
| ImportBackup.ImportColumnsSpec | backend/importBackup.js:48-59 | a column is imported iff it is a listed backup key, or is the users table's missing password_hash; other tables get the listed keys only; the default hash column comes last; no column repeats when the keys do not |
| ImportBackup.Placeholders | backend/importBackup.js:61 | a "?" per column separated by commas: length 2n-1, "?" at even and "," at odd positions, empty for no columns |
| ImportBackup.JoinMarks | backend/importBackup.js:61 | joining n question marks with commas gives that alternating text |
| ImportBackup.RowValues | backend/importBackup.js:68 | one value per column, in order: the row's value for that column, or None |
| ImportBackup.WithDefaultHash | backend/importBackup.js:57 | every row gets the default hash under password_hash, and its other fields read as before |
| ImportBackup.ImportPlanRuns | backend/importBackup.js:54-70 | one run per row, each as long as the column list; every column reads the backup row, a `password_hash` the backup carries included; with the default, the last value is the hash |
| ImportBackup.SetDefaultHash | backend/importBackup.js:57 | the array becomes WithDefaultHash of its old contents |
| ImportBackup.RunRows | backend/importBackup.js:67-70 | the runs are the value lists of the rows, in order |
| ImportBackup.ImportTable | backend/importBackup.js:34-82 | a missing file and empty data are skipped and change nothing; otherwise the statement is ImportPlan of the rows, and the rows hold the hash exactly when the default applies |
| Text.IdTextRoundTrip | frontend/src/pages/AdminAddExpense.jsx:94 | the decimal text of an id reads back as that id |
| Text.IdTextInjective | frontend/src/pages/AdminAddExpense.jsx:94 | different ids have different texts |
| Text.IncludesIffOccurs | frontend/src/pages/EventExpenses.jsx:127-129 | `includes` holds iff the needle is a contiguous slice of the text |
| Text.Lower | frontend/src/pages/EventExpenses.jsx:127-129 | same length; each character is lower-cased |
| Sql.NullableSumOrZero | backend/routes/finances.js:86-87 | `SUM(...) \|\| 0` is the plain sum, 0 when there are no rows |
| Sql.GroupBySumFind | backend/routes/finances.js:14-18 | the first grouped row of a key carries the sum of that key's rows; no row means 0 |
| Sql.GroupBySumKeys | backend/routes/finances.js:14-15 | GROUP BY yields each key once, exactly the keys of the rows |
| Sql.SumOverKeysAll | backend/routes/finances.js:22-23 | summing the per-key sums over all keys gives the total |
| Sorting.SortBySorted | backend/routes/finances.js:128 | the sort output is ordered by the row order |
| Sorting.SortBy | backend/routes/finances.js:128 | the sort output has the same length and the same multiset of rows as its input |

## Left out

- The HTTP layer and `protect`: Express routing, JSON bodies, JWT decoding (the caller's id is a parameter), 500 replies on database errors, and response messages.
- SQLite itself. The tables are row lists, and the queries are written out as filters, joins and sums. The nested `IN` over locations and tour days is represented by each event row carrying the group that owns it.
- Floating point: amounts are integer cents. `parseFloat(amount)` in the deposit edit and the `parseInt`/`parseFloat` conversions of the form's request are not modelled; the request carries the form's texts.
- Ties in `ORDER BY`: equal sort keys keep input order (insertion sort), whereas SQLite leaves their order open.
- Row order of a `SELECT` without `ORDER BY` (the member, expense and deposit queries of the summary routes): the model takes the rows in table order, an order SQLite does not promise. The per-member summaries follow that order.
- Lower-casing covers the ASCII letters only; Unicode case folding is not modelled.
- Asynchronous behaviour of the pages: races between requests, loading flags, `isSubmitting`, toasts, `eventBus` and re-render memoisation. Each request's answer is a parameter (`None` for a failed request).
- Rendering, including the submit button's disabled expression and the time formatting. Only the select-all checkbox's `checked` value is modelled.
- The backup import's file system, `JSON.parse` and `PRAGMA table_info`: whether the file exists, the parsed rows and the table's columns are parameters. `bcrypt` is left out too; the default hash is a parameter. `runImport`, the loop over tables, is not modelled.
- The JSON key order: JavaScript's `Object.keys` lists integer-like keys first. Rows here keep their keys in insertion order.
- The JSON values of a backup row are null, integers, strings and booleans; nested objects and fractions are not modelled.
- AddExpenseForm.SelectAllSelectsEveryone and AddExpenseForm.SelectAllCheckedIff: both require the group's member ids to be distinct, because the page relies on the length comparison alone and nothing in the code rules out repeated members.
- AddExpenseForm.ExpenseForm.ToggleUser: it keeps `Valid` only for the id of a listed member, the only ids the page lets the user click.
- Itinerary.ActiveDayPins: it requires a loaded itinerary to carry its day list, since the page reads `itinerary.days` without a guard and would throw otherwise.
- Finances.MasterSpentIsUserWide: it requires that no user is listed twice in a group. With repeated memberships the spent side is multiplied by the repeat count, which JoinedExpenseSum states.
