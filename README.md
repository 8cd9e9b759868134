# LOLO academy manager — a verified model of the store and the pages

LOLO is a single-page manager for a sports academy (badminton and
volleyball): players and their fee balances, training batches, sessions and
attendance, payments, enquiries (leads), tournaments and their results, the
equipment store and announcements. All of it lives in one in-memory
snapshot, `AppState`, which only the reducer `appReducer` changes, one
dispatched action at a time. The pages read the snapshot, compute figures
from it, and dispatch actions from their forms.

This project models that core in Dafny:

- `Types` (types.dfy): the records and enumerations of `types.ts`.
- `AppStore` (store.dfy):
  - the seed data and the initial state;
  - the closed set of actions;
  - the reducer as the total function `Reduce`, with `Run` for a sequence of dispatches;
  - the `login` rule;
  - the `useReducer` state cell as the class `Store`, with `Dispatch`, `SignIn` and `SignOut`.
- One module per page:
  - `Dashboard`, `Reports`, `CoachesPage`, `InventoryPage`, `PlayersPage`, `LeadsPage`;
  - `AttendancePage`, `SchedulePage`, `FinancesPage`, `BatchesPage`, `TournamentsPage`, `AnnouncementsPage`;
  - each page's figures are functions of the state;
  - each page's local React state (forms, modals, selections) is a class;
  - each of that class's handlers is a method that dispatches into the `Store`.
- `Revenue` (revenue.dfy): the group-and-sum fold over the payment ledger that
  both the Dashboard (by date) and the Reports page (by month) perform.
- `Common` and `Text`: sequence and string utilities with their lemmas, covering
  - filtering, sums, first match and de-duplication;
  - decimal rendering and parsing;
  - ASCII lower-casing and substring search;
  - JavaScript's default string order and sorting;
  - the order of ISO `YYYY-MM-DD` dates.

What the model proves, in the system's terms:

- The reducer:
  - each action writes only its own slice of the state, and `users` is never written;
  - ADD_PAYMENT keeps ledger and balances consistent. After any run of actions
    that neither replaces nor deletes players, each player's balance has grown by
    exactly the amounts the run recorded for that player.
  - UPDATE_ATTENDANCE is an upsert that keeps one record per (session, player) pair;
  - UPDATE_PLAYER and UPDATE_INVENTORY only ever replace;
  - announcements are prepended, everything else is appended.
- Login:
  - a seeded email logs in the seeded user whatever role is chosen;
  - any other email logs in a fresh `new-user`.
- The Dashboard and Reports:
  - every figure is stated against an independent definition;
  - the revenue charts list each key once, in first-occurrence order, and the
    buckets add up to the whole ledger;
  - a batch's attendance rate is a rounded percentage and never exceeds 100.
- The Schedule page groups sessions by date into a dictionary. Every session is
  in exactly the group of its date, and the sorted date keys run
  chronologically for ISO dates.
- Forms and handlers:
  - each form builds its record with the source's fallbacks (`|| 'Unknown'`, `|| 60`, …);
  - each handler dispatches exactly that record and resets exactly the fields the source resets.

Some behaviours of the source are modelled as written:

- Adding an item on the Inventory page dispatches UPDATE_INVENTORY with a fresh
  id. The reducer only replaces items, so the state does not change and the item
  never appears (`InventoryPage.AddItemIsNoOp`).
- `login` looks only at the seeded users, not at the state's `users`.
  The login screen's default address `demo@lolo.com` is not seeded, so it logs in
  a new user named `demo`.
- The Reports page counts only COACH users. The Coaches page lists COACH and
  ADMIN users, so the two disagree on the seed data (2 against 3).
- The attendance rate counts LATE as not present.
- The Attendance page's roster is every player, because of a `|| true`.
- Re-marking a player replaces the whole record, seed notes included.
- The "Enroll" button marks a lead CONVERTED and creates no student.
- The Finances page accepts zero and negative payments; a negative one lowers
  the payer's balance.

Inputs the browser supplies are parameters:

- today's date (`today`, `tomorrow` for the seed);
- `Date.now()` (`now`);
- `Math.random()`: `draw`, the integer `Math.floor(random * 90000)`.

## Model

| member | source | states |
|---|---|---|
| `AppStore.ReduceFrame` | store.tsx:113-164 | every action leaves every field outside its own slice unchanged; no action writes `users`; an unrecognised action returns the state as it was |
| `AppStore.SessionActions` | store.tsx:115-118 | LOGIN sets only the signed-in user; LOGOUT clears it; logging in then out restores the state with nobody signed in |
| `AppStore.AddPaymentCredits` | store.tsx:131-137 | ADD_PAYMENT appends exactly the payment to the ledger and adds its amount to the balance of every player with its player id, changing nothing else about any player; with no such player only the ledger grows |
| `AppStore.RunLedger` | store.tsx:113-164 | after any run of dispatches that neither replaces nor deletes players, each existing player's balance has grown by exactly the sum of the run's payments to that player, and the ledger is the old one followed by those payments |
| `AppStore.StepLedger` | store.tsx:113-164 | one dispatch of the run: a payment credits its amount to the player, any other roster-keeping action leaves the player and ledger alone |
| `AppStore.UpsertShape` | store.tsx:140-150 | when the (session, player) pair is present, every record of that pair is overwritten in place and the rest kept, same length and order; when it is absent the record is appended |
| `AppStore.UpsertKeepsUnique` | store.tsx:140-150 | if pairs were unique before, they are unique after; the payload is the only record of its pair; the list grows by one exactly when the pair was new |
| `AppStore.UniquePairFilter` | store.tsx:140-150 | under unique pairs, a stored record is the only one of its pair |
| `AppStore.SeedAttendanceUnique` | store.tsx:37-40 | the seeded attendance already has unique pairs |
| `AppStore.RunKeepsUniquePairs` | store.tsx:113-164 | every run of actions from a state with one record per (session, player) pair ends in such a state |
| `AppStore.ReachableUniquePairs` | store.tsx:37-40 | every state reached from the seed by any run of actions has one attendance record per pair |
| `AppStore.ReplacePlayerById` | store.tsx:121-122 | UPDATE_PLAYER replaces exactly the players with the payload's id, keeping length and order; an unknown id changes nothing |
| `AppStore.ReplaceItemById` | store.tsx:157-158 | UPDATE_INVENTORY replaces exactly the items with the payload's id, keeping length and order; an unknown id changes nothing |
| `AppStore.DeleteRemovesOnly` | store.tsx:151-152 | DELETE_PLAYER keeps exactly the players with another id, every copy of each, in order (the list shrinks by exactly the number of players with that id), and touches nothing else (payments and attendance of the deleted id stay) |
| `AppStore.InsertPositions` | store.tsx:119-156 | a new announcement goes first with the others after it; new players, batches, leads, sessions, tournaments and results are appended: each list becomes the old list followed by the new item |
| `AppStore.LeadStatusOnly` | store.tsx:127-128 | UPDATE_LEAD_STATUS changes only the status field, and only of the leads with that id |
| `AppStore.LoginUser` | store.tsx:179-188 | a seeded email yields the seeded user with that email; any other email yields `new-user` with the chosen role, the email's local part as name and the avatar URL built from the email |
| `AppStore.LoginIgnoresRoleForKnownEmail` | store.tsx:180-186 | for a seeded email the chosen role makes no difference |
| `AppStore.DemoLogin` | App.tsx:29 | the default address logs in a new user named `demo` with the chosen role |
| `AppStore.CoachLogin` | store.tsx:8 | `coach@lolo.com` logs in the seeded Coach Mike whatever role is chosen |
| `AppStore.Store.constructor` | store.tsx:177 | the cell starts at the initial state with nobody signed in |
| `AppStore.Store.Dispatch` | store.tsx:177 | the new state is the reducer applied to the old state and the action |
| `AppStore.Store.SignIn` | store.tsx:179-188 | the state changes only in its signed-in user, which becomes the login user for the email and role |
| `AppStore.Store.SignOut` | components/Layout.tsx:113 | the state changes only in its signed-in user, which is cleared |
| `Revenue.MonthOf` | pages/Reports.tsx:25 | the month key is the first seven characters of the date, or the whole date when it is shorter |
| `Revenue.TotalsKeys` | pages/Dashboard.tsx:27-36 | the chart's keys are the ledger's keys de-duplicated in first-occurrence order |
| `Revenue.TotalsKeysDistinct` | pages/Dashboard.tsx:27-36 | each key appears once, and a key appears iff some payment has it |
| `Revenue.TotalsAmounts` | pages/Dashboard.tsx:27-36 | every bucket holds the sum of the amounts of exactly the payments with its key |
| `Revenue.TotalsSum` | pages/Dashboard.tsx:27-36 | the buckets add up to the whole ledger: grouping neither loses nor invents money |
| `Dashboard.TotalPlayersIncludesInactive` | pages/Dashboard.tsx:14 | "Total Players" counts active and inactive players together |
| `Dashboard.SessionIdsOn` | pages/Dashboard.tsx:19-20 | an id is listed iff some session dated today has it |
| `Dashboard.PresentTodayCounts` | pages/Dashboard.tsx:18-21 | a record is counted iff it is PRESENT and belongs to a session dated today; the count is at most the number of records |
| `Dashboard.NotPresentNotCounted` | pages/Dashboard.tsx:21 | adding a LATE, ABSENT or EXCUSED record never changes today's count |
| `Dashboard.PendingAmountBounds` | pages/Dashboard.tsx:23-24 | the pending total is non-negative, at least the number of debtors, and zero exactly when nobody has a negative balance |
| `Dashboard.RevenueData` | pages/Dashboard.tsx:27-36 | the in-place fold (find the bucket, add to it or push a new one) computes the by-date grouping: each date once in first-occurrence order, each bucket its date's total, all buckets adding up to the ledger |
| `CoachesPage.ListedCoachesExact` | pages/Coaches.tsx:9 | the page lists exactly the COACH and ADMIN users, in user order |
| `CoachesPage.TotalHoursIsMinutes` | pages/Coaches.tsx:19 | the summed per-session hours equal the total minutes over sixty |
| `CoachesPage.EstimatedPayMeaning` | pages/Coaches.tsx:20 | pay is the coach's minutes times the rate over sixty; a coach without a rate is paid 0; pay is never negative for non-negative durations and rate |
| `CoachesPage.SeedCoachFigures` | pages/Coaches.tsx:18-20 | on the seed data Coach Mike has one session, 1.5 hours and pay 75; Admin Sarah is paid 0 |
| `Reports.BatchSessionIds` | pages/Reports.tsx:12 | an id is listed iff a session linked to the batch has it, one per linked session |
| `Reports.RoundPercent` | pages/Reports.tsx:19 | the result is the nearest whole percentage of present over records (halves rounded up), and at most 100 when present does not exceed records |
| `Reports.BatchRate` | pages/Reports.tsx:11-21 | a batch's rate is at most 100 |
| `Reports.BatchRateCases` | pages/Reports.tsx:11-21 | no linked sessions or no records gives 0; otherwise the rate is the rounded share of PRESENT records among the records of the linked sessions |
| `Reports.RoundingExamples` | pages/Reports.tsx:19 | 2 of 3 shows 67, 1 of 2 shows 50, 1 of 8 shows 13 |
| `Reports.UnbatchedSessionKeepsRates` | pages/Reports.tsx:12 | adding a session without a batch link changes no batch's rate |
| `Reports.SeedRateJuniors` | pages/Reports.tsx:11-21 | on the seed data Junior Beginners shows 50 |
| `Reports.SeedRatesZero` | pages/Reports.tsx:11-21 | on the seed data Advanced Youth and Adult Volleyball show 0 |
| `Reports.MonthDictMeaning` | pages/Reports.tsx:24-28 | after the `reduce` a month is a key iff some payment falls in it, and each month read with a default of 0 holds the total of that month's payments |
| `Reports.MonthTurnDict` | pages/Reports.tsx:26 | adding one payment's amount to its month's entry, starting from 0 for a new month, gives the dictionary of the ledger one payment longer |
| `Reports.MonthTurnOrder` | pages/Reports.tsx:26 | the same update adds a month to the key order only the first time it is written, at the end |
| `Reports.MonthTotals` | pages/Reports.tsx:24-28 | the loop builds the dictionary of the `reduce` over the whole ledger, with its keys in first-occurrence order |
| `Reports.PaymentsByMonth` | pages/Reports.tsx:24-29 | the monthly chart lists each month once in first-occurrence order, each with its total, adding up to the ledger |
| `Reports.SeedRevenue` | pages/Reports.tsx:24-29 | the seed ledger gives one month, 2023-10, with 750, and two dates with 300 and 450 |
| `Reports.StatusSlices` | pages/Reports.tsx:32-33 | the active and inactive slices add up to all players, the Dashboard's head count |
| `Reports.CoachCountsDiffer` | pages/Reports.tsx:99 | the Reports coach count plus the number of admins is the Coaches page's list length |
| `Reports.SeedCoachCounts` | pages/Reports.tsx:99 | on the seed users Reports shows 2 coaches and the Coaches page lists 3 |
| `Reports.LowStockStep` | pages/Reports.tsx:107 | for every inventory, one more item raises the low-stock count by one exactly when its quantity is at or below its threshold (boundary included) |
| `Reports.LowStockMembers` | pages/Reports.tsx:107 | an item is counted iff its quantity is at or below its threshold, and the count is at most the number of items |
| `Reports.LowStockFigures` | pages/Reports.tsx:107 | nothing in the seed stock is low; an item at its threshold counts as low |
| `InventoryPage.StockAfter` | pages/Inventory.tsx:19 | the new quantity is never negative: the change applied, or 0 when that would go below zero |
| `InventoryPage.Restocked` | pages/Inventory.tsx:18-21 | the dispatched item differs from the old one only in the clamped quantity and today's date |
| `InventoryPage.LowBoundary` | pages/Inventory.tsx:49 | stock equal to the threshold is low, one above is not; using an item at 0 leaves it at 0 |
| `InventoryPage.NewItem` | pages/Inventory.tsx:25-32 | the built item carries the form's values, an `inv`-prefixed id and today's date |
| `InventoryPage.AddItemIsNoOp` | pages/Inventory.tsx:33 | dispatching the new item with a fresh id leaves the state unchanged |
| `InventoryPage.SeedAddItemIsNoOp` | pages/Inventory.tsx:33 | on the seed state no added item ever appears |
| `InventoryPage.InventoryPage.constructor` | pages/Inventory.tsx:10-16 | the modal is closed and the form is Consumable, 0, threshold 5 |
| `InventoryPage.InventoryPage.UpdateStock` | pages/Inventory.tsx:18-21 | the store takes one UPDATE_INVENTORY with the clamped item |
| `InventoryPage.InventoryPage.AddItem` | pages/Inventory.tsx:23-36 | the store takes UPDATE_INVENTORY with the new item; the modal closes and the form resets |
| `PlayersPage.FilteredPlayersExact` | pages/Players.tsx:30-35 | the list holds exactly the players whose name, email, student id or guardian name contains the term ignoring case, in roster order |
| `PlayersPage.EmptySearchListsAll` | pages/Players.tsx:30-35 | an empty search lists every player |
| `PlayersPage.SearchIgnoresCase` | pages/Players.tsx:30-35 | lower-casing the term does not change the list |
| `PlayersPage.StudentId` | pages/Players.tsx:41 | the student number is `STU-` and five digits that read as `10000 + draw`, so always in 10000..99999 |
| `PlayersPage.NewPlayer` | pages/Players.tsx:37-54 | the registered player has the form's values with their fallbacks ('Unknown', '2010-01-01', '', fee 0), balance 0, today's join date, and the student number `StudentId(draw)`: `STU-` followed by the five digits of `10000 + draw` |
| `PlayersPage.RegisteredPlayerOwesNothing` | pages/Players.tsx:50-55 | registering appends one player, whose balance is 0 |
| `PlayersPage.FeeForBatch` | pages/Players.tsx:190-192 | the fee is the first matching batch's monthly fee, or 0 for an unknown batch |
| `PlayersPage.BalanceBadge` | pages/Players.tsx:129-130 | the badge shows `MVR` and the signed balance, and is red exactly when the balance is negative |
| `PlayersPage.PlayersPage.constructor` | pages/Players.tsx:17-28 | the search is empty, the modal closed, and the form blank with fee 300, ACTIVE and the first batch |
| `PlayersPage.PlayersPage.SelectBatch` | pages/Players.tsx:190-192 | picking a batch sets it and copies its fee into the form; nothing else changes |
| `PlayersPage.PlayersPage.Register` | pages/Players.tsx:37-58 | the store takes ADD_PLAYER with the new player; the modal closes and the form resets to fee 300 and ACTIVE |
| `LeadsPage.NewLead` | pages/Leads.tsx:53-63 | the recorded lead is NEW, dated today, with the form's values and empty notes by default |
| `LeadsPage.ConvertedIsFinal` | pages/Leads.tsx:24-38 | a converted lead offers no button; no button keeps the status; "Enroll" is offered iff not converted; "Mark Contacted" iff new |
| `LeadsPage.ButtonsKeepConverted` | pages/Leads.tsx:24-38 | when no other lead shares the pressed lead's id, pressing an offered button on one card never un-converts a converted lead (UPDATE_LEAD_STATUS rewrites every lead with that id) |
| `LeadsPage.StatusGroupsPartition` | pages/Leads.tsx:80-84 | the status groups' sizes add up to the number of leads |
| `LeadsPage.ColumnsMeaning` | pages/Leads.tsx:80-84 | a column holds exactly the leads of its status in order; the three shown columns count every lead that is not dropped |
| `LeadsPage.LeadsPage.constructor` | pages/Leads.tsx:46-51 | the modal is closed and the form blank with Badminton |
| `LeadsPage.LeadsPage.AddLead` | pages/Leads.tsx:53-67 | the store takes ADD_LEAD with the new lead; the modal closes and the form resets |
| `LeadsPage.LeadsPage.UpdateStatus` | pages/Leads.tsx:69-71 | the store takes UPDATE_LEAD_STATUS with the id and status |
| `LeadsPage.LeadsPage.ConvertToStudent` | pages/Leads.tsx:73-78 | the lead is marked CONVERTED and the roster does not change |
| `AttendancePage.GetStatus` | pages/Attendance.tsx:15-17 | no status iff the session has no record for the player; otherwise the status of the first such record |
| `AttendancePage.MarkRecord` | pages/Attendance.tsx:19-29 | the record has id `att_<session>_<player>`, the pair, the status and empty notes |
| `AttendancePage.MarkThenGet` | pages/Attendance.tsx:15-29 | after a mark the page shows the marked status |
| `AttendancePage.RepeatedMarks` | pages/Attendance.tsx:19-29 | marking twice leaves one record of the pair, the last mark, and keeps pairs unique |
| `AttendancePage.ReMarkLosesNotes` | pages/Attendance.tsx:19-29 | re-marking a seeded record replaces it, so its note is lost |
| `AttendancePage.RosterIsEveryone` | pages/Attendance.tsx:36 | with a session selected every player is listed; without one nothing is |
| `AttendancePage.AttendancePage.constructor` | pages/Attendance.tsx:9 | the first session is selected, or none when there are no sessions |
| `AttendancePage.AttendancePage.SelectSession` | pages/Attendance.tsx:45 | the chosen session becomes the selection |
| `AttendancePage.AttendancePage.Mark` | pages/Attendance.tsx:11-29 | with no session found nothing changes; otherwise the store takes UPDATE_ATTENDANCE with the mark for that session |
| `SchedulePage.BlankForm` | pages/Schedule.tsx:10-16 | the form opens on today, 16:00, 60 minutes, Court A, 6 places |
| `SchedulePage.NewSession` | pages/Schedule.tsx:18-29 | the session has the form's date and time, 60 minutes and 6 places for missing or zero numbers, Court A for an empty court, the signed-in user or u1 as coach, no players and no batch |
| `SchedulePage.NewSessionFallbacks` | pages/Schedule.tsx:24-27 | zero or unparsable numbers fall back; a negative capacity is kept; without a user the coach is u1 |
| `SchedulePage.NewSessionKeepsRates` | pages/Schedule.tsx:18-30 | scheduling a session changes no batch's attendance rate |
| `SchedulePage.GroupSessions` | pages/Schedule.tsx:35-40 | the dictionary's keys are the distinct dates in first-occurrence order, and each date's list holds exactly that date's sessions in store order |
| `SchedulePage.EachSessionOnce` | pages/Schedule.tsx:35-40 | every session's date is a key, and the session is in that group and in no other |
| `SchedulePage.GroupKeepsOrder` | pages/Schedule.tsx:35-40 | a group is an order-preserving selection of the sessions |
| `SchedulePage.GroupSizesCoverAll` | pages/Schedule.tsx:35-40 | the group sizes add up to the number of sessions |
| `SchedulePage.SortedDates` | pages/Schedule.tsx:42 | the listed dates are strictly ascending in string order, and a date is listed iff some session has it |
| `SchedulePage.SortedDatesAreChronological` | pages/Schedule.tsx:42 | with ISO dates, an earlier position means an earlier day |
| `Text.IsoDateOrder` | pages/Schedule.tsx:42 | for `YYYY-MM-DD` strings, string order is calendar order |
| `SchedulePage.SchedulePage.constructor` | pages/Schedule.tsx:10-16 | the modal is closed and the form blank |
| `SchedulePage.SchedulePage.AddSession` | pages/Schedule.tsx:18-32 | the store takes ADD_SESSION with the new session; the modal closes and the form keeps its values |
| `FinancesPage.FirstPlayerId` | pages/Finances.tsx:12 | the first player's id, or empty with no players |
| `FinancesPage.BlankForm` | pages/Finances.tsx:11-16 | the form opens on the first player, amount 0, CASH, today, no reference |
| `FinancesPage.NewPayment` | pages/Finances.tsx:18-27 | the payment carries the form's values unchecked and a `pay`-prefixed id |
| `FinancesPage.NegativePaymentDebits` | pages/Finances.tsx:18-28 | a negative payment is recorded and lowers the payer's balance |
| `FinancesPage.PayerName` | pages/Finances.tsx:60 | the first matching player's name, 'Unknown' when it is empty or nobody matches |
| `FinancesPage.Transactions` | pages/Finances.tsx:55 | the table has one row per payment |
| `FinancesPage.TransactionsNewestFirst` | pages/Finances.tsx:55-60 | row `k` shows the `k`-th newest payment with its payer's name |
| `FinancesPage.RowsAfterAppend` | pages/Finances.tsx:55 | appending a payment to the ledger puts its row on top and keeps the other rows when the names are unchanged |
| `FinancesPage.NewestFirst` | pages/Finances.tsx:55-65 | a recorded payment heads the table and the older rows follow unchanged |
| `FinancesPage.BalanceText` | pages/Finances.tsx:85-86 | red iff negative; `-MVR` and digits for a negative balance, `MVR` and digits otherwise |
| `FinancesPage.BalanceTextRoundTrip` | pages/Finances.tsx:86 | the shown digits parse back to the balance's magnitude |
| `FinancesPage.FinancesPage.constructor` | pages/Finances.tsx:11-16 | the modal is closed and the form blank |
| `FinancesPage.FinancesPage.RecordPayment` | pages/Finances.tsx:18-30 | the store takes ADD_PAYMENT with the new payment; the modal closes and the form keeps its values |
| `BatchesPage.NewBatch` | pages/Batches.tsx:18-27 | the batch has the form's values, a `b`-prefixed id, and the signed-in user or u1 as coach |
| `BatchesPage.ActiveStudents` | pages/Batches.tsx:44 | exactly the active players of the batch, in roster order |
| `BatchesPage.StudentCountStep` | pages/Batches.tsx:44 | a new player raises a batch's count by one iff it is an active member |
| `BatchesPage.CountIsGroupSize` | pages/Batches.tsx:44 | a card's count is the batch's group size among active players |
| `BatchesPage.CardTotalIsGroupSizes` | pages/Batches.tsx:43-44 | the cards' counts add up to the group sizes over the batch ids |
| `BatchesPage.CardTotalAtMostActive` | pages/Batches.tsx:43-44 | with distinct batch ids no player is counted twice: the cards add up to at most the active players |
| `BatchesPage.SeedStudentCounts` | pages/Batches.tsx:44 | on the seed data the cards read 2, 1 and 0 |
| `BatchesPage.CoachLabel` | pages/Batches.tsx:45 | 'You' iff someone is signed in and coaches the batch, 'Coach' otherwise |
| `BatchesPage.CreatorSeesYou` | pages/Batches.tsx:45 | a batch created while signed in reads 'You' |
| `BatchesPage.BatchesPage.constructor` | pages/Batches.tsx:11-16 | the modal is closed and the form is Badminton at 300 |
| `BatchesPage.BatchesPage.CreateBatch` | pages/Batches.tsx:18-31 | the store takes ADD_BATCH with the new batch; the modal closes and the form resets |
| `TournamentsPage.NewTournament` | pages/Tournaments.tsx:25-32 | the tournament has the form's values and a `t`-prefixed id |
| `TournamentsPage.NewTournamentListedLast` | pages/Tournaments.tsx:25-34 | the tournament is listed last and no results change |
| `TournamentsPage.NewResult` | pages/Tournaments.tsx:40-46 | the result has the form's values, the chosen tournament and an `r`-prefixed id |
| `TournamentsPage.ResultsFor` | pages/Tournaments.tsx:62 | a card holds exactly its tournament's results, in order |
| `TournamentsPage.AddedResultShownOnce` | pages/Tournaments.tsx:37-62 | an added result is shown last on its own card and on no other |
| `TournamentsPage.SeedResults` | pages/Tournaments.tsx:62 | on the seed data the City Junior Open shows both results and the Winter Cup none |
| `TournamentsPage.BadgeColour` | pages/Tournaments.tsx:87-89 | yellow iff Winner, blue iff Semi-Finalist, gray iff Runner-up or Participant |
| `TournamentsPage.TournamentsPage.constructor` | pages/Tournaments.tsx:10-23 | both modals are closed and both forms blank |
| `TournamentsPage.TournamentsPage.OpenResult` | pages/Tournaments.tsx:76 | the tournament becomes the one the result modal is for |
| `TournamentsPage.TournamentsPage.AddTournament` | pages/Tournaments.tsx:25-35 | the store takes ADD_TOURNAMENT with the new tournament; the modal closes |
| `TournamentsPage.TournamentsPage.AddResult` | pages/Tournaments.tsx:37-49 | with no tournament chosen nothing happens; otherwise the store takes ADD_RESULT for it and the modal closes |
| `AnnouncementsPage.NewAnnouncement` | pages/Announcements.tsx:25-32 | the title is the topic or 'New Announcement', with the text, today, the audience and the signed-in user or admin as author |
| `AnnouncementsPage.PostedFirst` | store.tsx:138-139 | the posted announcement heads the list, the earlier ones follow, and nothing else changes |
| `AnnouncementsPage.LatestFirst` | store.tsx:138-139 | posting twice shows the later announcement first |
| `AnnouncementsPage.AnnouncementsPage.constructor` | pages/Announcements.tsx:10-12 | the topic and text are empty and the audience is everyone |
| `AnnouncementsPage.AnnouncementsPage.EditText` | pages/Announcements.tsx:78 | the message text is replaced, nothing else |
| `AnnouncementsPage.AnnouncementsPage.Post` | pages/Announcements.tsx:23-36 | without text nothing happens; otherwise the announcement is dispatched and topic and text are cleared, the audience kept |

## Left out

- The AI service calls (`services/gemini.ts`: the announcement draft, the player analysis) and their loading flags: they call an external service. The draft text enters the model through `EditText`.
- Rendering, JSX, icons, charts, routing and the layout: only the figures the pages compute are modelled.
- The Settings page (logo upload, settings form): it is not part of this model. UPDATE_SETTINGS is modelled in the reducer.
- The clock and `Math.random`: today's date, `Date.now()` and the random draw are parameters.
- Floating point:
  - hours and pay are exact rationals;
  - `toFixed` formatting is not modelled;
  - `Math.round` is modelled on exact rationals as round-half-up.
- Reports.RoundPercent: can be one higher than the page where the exact share is a half, because the page rounds a double. For 57 present of 200 records the model gives 29, but the double `57 / 200 * 100` is 28.499999999999996, which the page rounds to 28.
- `Number(...)` coercions: a number field is an integer, or `None` where the source's `parseInt` gives NaN. NaN amounts and fees are not modelled.
- `toLowerCase` is modelled on ASCII letters only; `includes` is exact substring search on characters.
- `sort()` on date keys is modelled as character order, not UTF-16 code-unit order. JavaScript's ordering of integer-like object keys is not modelled: date and month keys are never integer-like.
- `as any` strings (lead status, role, category, audience, achievement, method) are the enumerations. A value outside the enumeration cannot be written.
- Forms that reset a field to `undefined`, such as Inventory's name, are modelled with an empty string.
- `alert` calls are left out.
- The BATCH audience exists in the types but no option selects it; it is kept in `Audience`.
- Session capacity is stored and shown but never enforced, as in the source.
- Validation done by the browser's `required` attributes is not modelled: the handlers accept any form values.
- `Types.OrElse`, `Types.NumberOr` and `Types.UserIdOr` model `||` on an empty string, a zero or NaN, and a missing or empty user id. Other falsy values do not arise in these types.
