# Budget tracker: a verified model of the domain store and its views

This project models the core of a small event-budget tracker in Dafny and proves
properties of that model. The tracker keeps budgets, expenses, anomalies (budget
overruns), notifications and anonymous HR feedback reports in memory. It detects an
overrun when an expense pushes a budget past its allocation, and gives each feedback
report a tracking code of the form `FB-<year>-<NNN>`.

The model has these modules, one per core file plus three of shared definitions:

- `Seqs` (seqs.dfy): `Option`, an order-keeping `Filter`, `Count` and `Sum` over
  sequences, with their algebra.
- `Strings` (strings.dfy): the JavaScript string operations the code relies on:
  - `String(n)` for whole numbers, `padStart`, `trim`;
  - `split` on one character, `join`;
  - `toUpperCase`, limited to ASCII;
  - `replace` of the first occurrence.
- `Types` (types.dfy): the records and closed enumerations of `lib/types.ts`.
- `BudgetContext` (budget_context.dfy): the store (`BudgetProvider`).
  - It is a class `BudgetStore` with the five lists as `seq` fields.
  - Each mutator is a method. `addExpense` walks the budgets in a loop that is proved
    against the functions `ChargeAll`, `Detected` and `Alerts`.
  - The queries are functions.
- `ExpenseForm` (expense_form.dfy): the expense dialog.
  - Part of it is pure: the ordered validation and the list of offered budgets.
  - Part of it is a class: the state of the dialog and its submit handler.
- `AnomalyList` (anomaly_list.dfy): the icon and colour of each anomaly status, and
  the only status graph in the application, which is the set of action buttons each
  status offers.
- `FeedbackList` (feedback_list.dfy): the tab filter, the tab counts, and the report
  dialog (a class).
- `ReportPreview` (report_preview.dfy): the exceeded budgets, the summary rows, the
  total overrun, and the status histogram.
- `NotificationList` (notification_list.dfy): relative time stamps, icons, and the
  "Mark all read" rule.
- `AuthContext` (auth_context.dfy): the mock login against three demo accounts, and
  the session's user (a class).
- `Header` (header.dfy): avatar initials, the unread badge, and the theme button title.
- `MobileSidebar` (mobile_sidebar.dfy): the role-filtered menu, the badges, and the
  user card.

Amounts are modelled as `real`, so overruns and percentages are exact.

Some values the code takes from the environment are parameters here:

- record ids (`Date.now()`), dates and times (`new Date()`), and the year
  (`getFullYear()`);
- the current time in the notification list;
- the text-to-number conversion of the amount field: the form holds
  `Option<real>`, where `None` is the `NaN` of `parseFloat`.

What the code does not do:

- `updateAnomalyStatus` checks neither the caller's role nor the transition.
  - The store accepts any status: `StoreAcceptsAnyTransition`.
  - The transition rules exist only as the buttons of the anomaly list.
- `percentageOver` is not guarded against a zero allocation. The model gives
  `PositiveInfinity` there, as the floating-point division does, and does not exclude
  that input.
- The store context defines neither `reloadData` nor `loading`, although the views use
  both.
  - The expense dialog calls `reloadData()` after adding the expense. That call
    throws, with the effect recorded under "## Findings".
  - In the notification list `loading` is always `undefined`, so the list never shows
    "Loading...". The model keeps `loading` as a parameter, and the value that happens
    is `false`.
- The expense the dialog builds gets an id from `crypto.randomUUID()`. `addExpense`
  overwrites that id with its own, so the dialog's id is not modelled.

## Model

| member | source | states |
|---|---|---|
| BudgetContext.BudgetStore.constructor | lib/budget-context.tsx:33-37 | the store starts from the five seed lists |
| BudgetContext.NewBudget | lib/budget-context.tsx:39-46 | a new budget carries the caller's fields, the given id and date, nothing spent, status active |
| BudgetContext.BudgetStore.AddBudget | lib/budget-context.tsx:39-48 | appends exactly that one budget after the existing ones, which are unchanged and in order; the other lists are unchanged |
| BudgetContext.UpdateBudgets | lib/budget-context.tsx:50-52 | the budgets with the id get the patch and the rest are kept; UpdateBudgetsIdempotent and UpdateBudgetsFrame state its properties |
| BudgetContext.UpdateBudgetsIdempotent | lib/budget-context.tsx:50-52 | applying the same patch twice equals applying it once, even when the patch changes the id |
| BudgetContext.UpdateBudgetsFrame | lib/budget-context.tsx:50-52 | the length is kept; budgets with another id are untouched; an id no budget has changes nothing |
| BudgetContext.BudgetStore.UpdateBudget | lib/budget-context.tsx:50-52 | budgets become the patched list; the other four lists are unchanged |
| BudgetContext.NewExpense | lib/budget-context.tsx:55-58 | the stored expense is the caller's expense under the store's id |
| BudgetContext.BudgetStore.AddExpense | lib/budget-context.tsx:54-98 | appends the expense; every budget with the id is charged; one anomaly is appended and one alert prepended per budget that crosses its allocation for the first time; reports are unchanged |
| BudgetContext.ChargeAllSnoc | lib/budget-context.tsx:61-96 | charging a list with one more budget at the end charges that budget last and leaves the rest as before |
| BudgetContext.ChargeAll | lib/budget-context.tsx:61-66 | the budgets after the expense; ChargeAllSnoc, ChargeStatus and ChargeAllNoMatch state what it does to each budget |
| BudgetContext.Detected | lib/budget-context.tsx:67-79 | the anomalies the expense raises; DetectedSnoc, DetectedRefersTo and DetectedUnique state which |
| BudgetContext.Alerts | lib/budget-context.tsx:81-90 | the alerts the expense raises; AlertsSnoc and DetectedUnique state which, and in what order |
| BudgetContext.DetectedSnoc | lib/budget-context.tsx:67-79 | anomalies are appended in budget order, one for a last budget that crosses |
| BudgetContext.AlertsSnoc | lib/budget-context.tsx:81-90 | alerts are prepended, so the last crossing budget's alert comes first |
| BudgetContext.ChargeStatus | lib/budget-context.tsx:64-65 | the new status is exceeded iff spending passes the allocation or it already was exceeded; otherwise the old status is kept; spending grows by the amount |
| BudgetContext.ChargeAllSpent | lib/budget-context.tsx:59-64 | the total spent rises by the amount once per budget carrying the id |
| BudgetContext.ChargeAllSpentProduct | lib/budget-context.tsx:129-131 | the same rise, stated as amount × number of budgets carrying the id |
| BudgetContext.TotalAllocated | lib/budget-context.tsx:125-127 | the sum of the allocations; ChargeAllAllocated states how an expense affects it |
| BudgetContext.TotalSpent | lib/budget-context.tsx:129-131 | the sum of the spending; ChargeAllSpent and TotalSpentRisesByAmount state how an expense affects it |
| BudgetContext.MatchCountSnoc | lib/budget-context.tsx:63 | one more budget counts once more exactly when it carries the id |
| BudgetContext.TimesIsProduct | lib/budget-context.tsx:129-131 | adding an amount n times equals multiplying it by n |
| BudgetContext.TotalSpentRisesByAmount | lib/budget-context.tsx:129-131 | with exactly one budget carrying the id, the total spent rises by exactly the amount |
| BudgetContext.ChargeAllAllocated | lib/budget-context.tsx:125-127 | an expense never changes the total allocation |
| BudgetContext.ChargeAllNoMatch | lib/budget-context.tsx:61-96 | an expense for an unknown budget id changes no budget and raises no anomaly and no alert |
| BudgetContext.ChargeAllKeepsConsistent | lib/budget-context.tsx:64-65 | a non-negative expense keeps every budget "exceeded iff overspent" |
| BudgetContext.NegativeExpenseBreaksConsistency | lib/budget-context.tsx:64-65 | a negative expense can bring an exceeded budget back under its allocation while it stays exceeded |
| BudgetContext.PercentOver | lib/budget-context.tsx:75 | infinite exactly when the allocation is zero; otherwise percentage × allocation = overrun × 100 |
| BudgetContext.AnomalyFor | lib/budget-context.tsx:68-78 | the anomaly refers to the budget, is pending, and has overrun = new spent - allocation > 0 and the percentage of that overrun |
| BudgetContext.AlertFor | lib/budget-context.tsx:81-89 | the alert is an unread alert carrying the budget's id |
| BudgetContext.ScanStep | lib/budget-context.tsx:61-96 | one step of the walk over the budgets: the charged list, the anomalies and the alerts built for the first i budgets extend to the first i + 1, with an anomaly and an alert only when that budget carries the id and crosses for the first time |
| BudgetContext.DetectedUnique | lib/budget-context.tsx:67-91 | when one budget carries the id, exactly one anomaly and one alert are raised if it crosses for the first time, and none otherwise |
| BudgetContext.OverrunScenario | lib/budget-context.tsx:64-78 | 1200 spent on an untouched budget of 1000: spent 1200, exceeded, overrun 200, 20 percent |
| BudgetContext.TwoExpensesOneAnomaly | lib/budget-context.tsx:64-79 | two expenses of 600 against 1000: the first raises no anomaly, the second exactly one, and the budget ends exceeded at 1200 |
| BudgetContext.HasAnomalyAppend | lib/budget-context.tsx:79 | an anomaly refers to a budget in a joined list iff it does in one of the parts |
| BudgetContext.DetectedRefersTo | lib/budget-context.tsx:67-79 | the new anomalies refer exactly to the budgets that carry the id and cross for the first time |
| BudgetContext.ChargeAllKeepsExceededIffAnomaly | lib/budget-context.tsx:61-97 | with distinct budget ids, "a budget is exceeded iff some anomaly refers to it" is preserved by addExpense |
| BudgetContext.SetAnomalyStatus | lib/budget-context.tsx:100-102 | the length is kept; anomalies with the id get the requested status, the rest keep theirs; no other field changes |
| BudgetContext.StoreAcceptsAnyTransition | lib/budget-context.tsx:100-102 | the store moves an approved anomaly back to pending |
| BudgetContext.SetAnomalyStatusKeepsReferences | lib/budget-context.tsx:100-102 | a status update never changes which budgets have an anomaly |
| BudgetContext.PendingCount | lib/budget-context.tsx:133-135 | the number of pending anomalies; BudgetStore.GetAnomaliesCount and ReportPreview.PendingFiltersAgree state its properties |
| BudgetContext.BudgetStore.UpdateAnomalyStatus | lib/budget-context.tsx:100-102 | anomalies become the updated list; the other lists are unchanged |
| BudgetContext.MarkRead | lib/budget-context.tsx:104-108 | the notifications with one marked read; MarkReadEffect and MarkReadUnreadCount state its properties |
| BudgetContext.MarkAllRead | lib/budget-context.tsx:110-112 | every notification marked read; MarkAllReadEffect states its properties |
| BudgetContext.UnreadCount | lib/budget-context.tsx:114-116 | the number of unread notifications; BudgetStore.GetUnreadNotificationsCount and Header.UnreadBadgeIff state its properties |
| BudgetContext.MarkReadEffect | lib/budget-context.tsx:104-108 | only the read flag of the notifications with the id becomes true; the length and every other field are kept; doing it twice is doing it once |
| BudgetContext.MarkReadUnreadCount | lib/budget-context.tsx:104-116 | marking one read never raises the unread count |
| BudgetContext.BudgetStore.MarkNotificationRead | lib/budget-context.tsx:104-108 | notifications become the marked list; the other lists are unchanged |
| BudgetContext.MarkAllReadEffect | lib/budget-context.tsx:110-116 | every notification is read with all else kept, the unread count is zero, and doing it twice is doing it once |
| BudgetContext.MarkAllReadScenario | lib/budget-context.tsx:110-116 | three unread of five give an unread count of 3, then 0 after marking all read |
| BudgetContext.BudgetStore.MarkAllNotificationsRead | lib/budget-context.tsx:110-112 | every notification becomes read and the unread count is then 0; the other lists are unchanged |
| BudgetContext.BudgetStore.GetUnreadNotificationsCount | lib/budget-context.tsx:114-116 | at most the number of notifications, and positive iff some notification is unread |
| BudgetContext.BudgetExpenses | lib/budget-context.tsx:118-123 | exactly the expenses of that budget |
| BudgetContext.BudgetExpensesAfterAdd | lib/budget-context.tsx:118-123 | a new expense shows up last in its budget's list; the earlier ones keep their order; other budgets' lists are unchanged |
| BudgetContext.BudgetStore.GetAnomaliesCount | lib/budget-context.tsx:133-135 | at most the number of anomalies, and positive iff some anomaly is pending |
| BudgetContext.SequenceNumberValue | lib/budget-context.tsx:139 | the sequence number has at least three digits and reads back as report count + 1 |
| BudgetContext.TrackingCode | lib/budget-context.tsx:137-141 | the code for a year and a report count; TrackingCodeFormat and TrackingCodeInjective state its properties |
| BudgetContext.TrackingCodeFormat | lib/budget-context.tsx:137-141 | the code is "FB-", the year, "-" and the sequence number, each at a fixed position |
| BudgetContext.Layout | lib/budget-context.tsx:140 | where each piece of `prefix + year + "-" + number` sits |
| BudgetContext.TrackingCodeInjective | lib/budget-context.tsx:137-141 | equal codes come from the same year and the same report count |
| BudgetContext.NewReport | lib/budget-context.tsx:146-152 | the new report carries the caller's fields, the given id, date and code, and status new |
| BudgetContext.ReportAlert | lib/budget-context.tsx:155-162 | the alert is an unread alert referring to no budget |
| BudgetContext.NewReportCounted | lib/budget-context.tsx:183-185 | prepending a new report raises the new-report count by one and keeps the order of the others |
| BudgetContext.BudgetStore.AddFeedbackReport | lib/budget-context.tsx:143-168 | returns the code for the current count; prepends the report with that code and the alert; the new count rises by one; the rest of the store is unchanged |
| BudgetContext.SuccessiveReportsGetDistinctCodes | lib/budget-context.tsx:137-168 | two reports added in a row get the codes for counts n and n + 1, which differ |
| BudgetContext.MergeNotes | lib/budget-context.tsx:172 | notes that are given and non-empty replace the old ones; otherwise the old ones stay |
| BudgetContext.UpdateFeedback | lib/budget-context.tsx:170-174 | the length is kept; reports with another id are untouched; a matching report gets the status and the merged notes, with nothing else changed |
| BudgetContext.BudgetStore.UpdateFeedbackStatus | lib/budget-context.tsx:170-174 | reports become the updated list; the other lists are unchanged |
| BudgetContext.FeedbackByStatus | lib/budget-context.tsx:176-181 | exactly the reports with that status |
| BudgetContext.NewFeedbackCount | lib/budget-context.tsx:183-185 | the number of new reports; NewReportCounted and BudgetStore.GetNewFeedbackCount state its properties |
| BudgetContext.BudgetStore.GetNewFeedbackCount | lib/budget-context.tsx:183-185 | at most the number of reports, and positive iff some report is new |
| ExpenseForm.InitialForm | components/expense-form.tsx:44-50 | the form starts from the budget id given as a property (or ""), empty fields and today's date |
| ExpenseForm.Validate | components/expense-form.tsx:58-85 | the checks in order: a missing budget, then a blank description, then a missing or non-positive amount, each with its message; valid iff all pass; the expense built has the trimmed description, the user id or "unknown", and the category or "General" |
| ExpenseForm.ValidExpenseWellFormed | components/expense-form.tsx:58-85 | a built expense names a budget, has a positive amount, a submitter, a category, and a non-empty description with no white space at its ends |
| ExpenseForm.TrimIdempotent | components/expense-form.tsx:80 | trimming an already trimmed description changes nothing |
| ExpenseForm.ActiveBudgets | components/expense-form.tsx:52 | exactly the active budgets |
| ExpenseForm.ActiveBudgetsOrder | components/expense-form.tsx:52 | the offered budgets keep the list's order |
| ExpenseForm.ExceededNotOffered | components/expense-form.tsx:52 | a budget that is not active is never offered |
| ExpenseForm.ExpenseDialog.constructor | components/expense-form.tsx:37-50 | the dialog starts closed, not loading, with no error and the initial form |
| ExpenseForm.ExpenseDialog.SetOpen | components/expense-form.tsx:115 | only the open flag changes |
| ExpenseForm.ExpenseDialog.SetFormData | components/expense-form.tsx:44 | only the form changes |
| ExpenseForm.ExpenseDialog.SubmitAsWritten | components/expense-form.tsx:54-112 | a failed check sets its message and leaves the form and the store alone; a passing form adds the expense to the store, resets the form and closes the dialog, and still ends with the failure message and without onSuccess |
| ExpenseForm.ExpenseDialog.Submit | components/expense-form.tsx:54-112 | the same handler without the missing call: onSuccess runs iff the form is valid, and then no error is left |
| ExpenseForm.PizzaFormValid | components/expense-form.tsx:58-85 | the form of the counterexample passes every check and builds the expected expense |
| ExpenseForm.SubmitReportsFailureAfterAdding | components/expense-form.tsx:89-107 | for any valid form against a store holding the budget it names, the expense is recorded and the budget charged by its amount, yet the dialog shows the failure message, is closed, and onSuccess is not called |
| AnomalyList.StatusStylesTotal | components/anomaly-list.tsx:13-41 | each status has its own colour and icon; any other string gets the muted colour, which no status uses, and the clock icon |
| AnomalyList.StatusIcon | components/anomaly-list.tsx:13-26 | the icon for a status string; StatusStylesTotal states that it is distinct per status |
| AnomalyList.StatusColor | components/anomaly-list.tsx:28-41 | the colour for a status string; StatusStylesTotal states that it is distinct per status |
| AnomalyList.LabelsDistinct | components/anomaly-list.tsx:92-119 | the three buttons read differently |
| AnomalyList.ButtonLabels | components/anomaly-list.tsx:92-119 | one caption per button a card shows, in order, each the caption of its action, no two alike |
| AnomalyList.OfferedActions | components/anomaly-list.tsx:92-119 | the buttons shown for a status, in order; Offers and OffersGoForward state which moves they allow |
| AnomalyList.Offers | components/anomaly-list.tsx:92-119 | pending offers reviewed, approved and rejected; reviewed offers approved and rejected; nothing else is offered anything |
| AnomalyList.OffersGoForward | components/anomaly-list.tsx:92-119 | every offered target ranks strictly higher, differs from the current status, and is not pending |
| AnomalyList.PathRank | components/anomaly-list.tsx:92-119 | along a path of offered moves the rank grows by at least one per step |
| AnomalyList.PathsShortAndForward | components/anomaly-list.tsx:92-119 | following the buttons takes at most two moves and never returns to pending |
| AnomalyList.Press | components/anomaly-list.tsx:94-114 | pressing an offered button gives the card's anomalies the button's status, which ranks higher, and leaves the others untouched |
| FeedbackList.FilteredReports | components/feedback-list.tsx:61-66 | exactly the reports the tab keeps |
| FeedbackList.TabKeeps | components/feedback-list.tsx:61-66 | which reports a tab keeps; AllTabKeepsEverything and StatusPartition state its properties |
| FeedbackList.AllTabKeepsEverything | components/feedback-list.tsx:61-66 | "all" and any unrecognised tab show the whole list in order |
| FeedbackList.FilterKeepsOrder | components/feedback-list.tsx:61-66 | every tab keeps the order of the list |
| FeedbackList.StatusPartition | components/feedback-list.tsx:63-64 | each status is in exactly one of "active" and "resolved" |
| FeedbackList.GetStatusCounts | components/feedback-list.tsx:81-85 | all is the length; active and resolved are counted with status filters of their own, and each equals the length of its tab's list |
| FeedbackList.CountsAddUp | components/feedback-list.tsx:81-85 | active + resolved = all |
| FeedbackList.ReportDialog.constructor | components/feedback-list.tsx:56-59 | nothing selected, status new, empty notes, tab "all" |
| FeedbackList.ReportDialog.Open | components/feedback-list.tsx:68-72 | selects the report and seeds the status and the notes (or "") from it |
| FeedbackList.ReportDialog.SetNewStatus | components/feedback-list.tsx:220 | only the chosen status changes |
| FeedbackList.ReportDialog.SetNotes | components/feedback-list.tsx:239 | only the notes change |
| FeedbackList.ReportDialog.Close | components/feedback-list.tsx:247-250 | only the selection is cleared |
| FeedbackList.ReportDialog.Save | components/feedback-list.tsx:74-79 | with a selection, stores the status and notes against its id and clears it; without one, changes nothing |
| FeedbackList.OpenThenSaveIsNoOp | components/feedback-list.tsx:68-79 | opening a report and saving it unedited leaves the reports unchanged |
| FeedbackList.NotesCannotBeCleared | components/feedback-list.tsx:74-79 | saving an emptied notes field keeps every report's old notes |
| ReportPreview.ExceededBudgets | components/report-preview.tsx:10 | exactly the exceeded budgets |
| ReportPreview.ExceededBudgetsOrder | components/report-preview.tsx:10 | the filter keeps the list's order |
| ReportPreview.ShortName | components/report-preview.tsx:13 | the name shown for a budget; ShortNameIsPrefix states its shape |
| ReportPreview.ShortNameIsPrefix | components/report-preview.tsx:13 | the short name is a prefix of the event name holding at most one space; it is the whole name, or it stops just before a space and holds exactly one; a name without a space is kept whole |
| ReportPreview.SummaryData | components/report-preview.tsx:12-17 | one row per exceeded budget, in order, with its allocation and spending, overrun = spent - allocation, and as name the first two words of its name (as ShortNameIsPrefix states) |
| ReportPreview.TotalExceeded | components/report-preview.tsx:26 | the sum of the overruns of the exceeded budgets; TotalExceededIsDifference and OverrunPositive state its properties |
| ReportPreview.TotalExceededIsDifference | components/report-preview.tsx:26 | the total overrun is the exceeded budgets' spending minus their allocation |
| ReportPreview.OverrunPositive | components/report-preview.tsx:26 | when exceeded means overspent, the total overrun is never negative and is positive once some budget is exceeded |
| ReportPreview.AllSlices | components/report-preview.tsx:19-23 | the four slices before the empty ones are dropped; StatusDataInOrder and StatusCountsAddUp state their values |
| ReportPreview.StatusData | components/report-preview.tsx:19-24 | at most four slices, each non-empty and one of the four, and every non-empty one present |
| ReportPreview.StatusDataInOrder | components/report-preview.tsx:19-24 | the chart is Pending, Reviewed, Approved, Rejected in that order, each present iff its count is positive |
| ReportPreview.DropEmptyKeepsTotal | components/report-preview.tsx:24 | dropping the empty slices keeps the total |
| ReportPreview.StatusCountsAddUp | components/report-preview.tsx:19-23 | the four status counts add up to the number of anomalies |
| ReportPreview.StatusDataTotal | components/report-preview.tsx:19-24 | the chart's values add up to the number of anomalies |
| ReportPreview.PendingReview | components/report-preview.tsx:46 | when positive, the first slice of the chart is the Pending slice with that value |
| ReportPreview.PendingReviewIsStoreCount | components/report-preview.tsx:46 | "Pending Review" equals the store's pending-anomaly count |
| ReportPreview.PendingFiltersAgree | components/report-preview.tsx:20 | the chart's pending count and the store's agree |
| NotificationList.FormatTimestamp | components/notification-list.tsx:26-36 | the relative time shown; FormatTimestampCases states each case |
| NotificationList.DaysOfHours | components/notification-list.tsx:30-31 | whole days of whole hours are whole days of the difference |
| NotificationList.FormatTimestampCases | components/notification-list.tsx:26-36 | a day or more shows whole days; an hour up to a day shows 1 to 23 whole hours; less, a future time, or an invalid date shows "Just now" |
| NotificationList.IconFor | components/notification-list.tsx:13-24 | the icon for a notification type; IconsDistinct states that it is distinct per type |
| NotificationList.IconsDistinct | components/notification-list.tsx:13-24 | each notification type has its own icon, and the bell is only for other strings |
| NotificationList.ShowMarkAllRead | components/notification-list.tsx:49-54 | whether the button shows; MarkAllReadButton states when |
| NotificationList.Description | components/notification-list.tsx:45-47 | the text under the title; MarkAllReadButton states the caught-up text |
| NotificationList.MarkAllReadButton | components/notification-list.tsx:38-54 | the button shows iff not loading and something is unread; after pressing it, it is gone and the description reads "All caught up!" |
| NotificationList.ClickMarksThatOne | components/notification-list.tsx:70 | with distinct ids, clicking a notification marks that one read and no other |
| AuthContext.FindAccount | lib/auth-context.tsx:72 | the first account with both the email and the password, or none when no account has both |
| AuthContext.Authenticate | lib/auth-context.tsx:72-75 | the user a login signs in, if any; AuthenticateIff and DemoAccounts state its properties |
| AuthContext.AuthenticateIff | lib/auth-context.tsx:72-75 | a login succeeds iff some demo account has both, and signs in the first such account's user without the password |
| AuthContext.DemoAccounts | lib/auth-context.tsx:25-72 | each demo account signs in as its own user, and a wrong password for its email is refused |
| AuthContext.AuthSession.constructor | lib/auth-context.tsx:53 | nobody is signed in at first |
| AuthContext.AuthSession.IsAuthenticated | lib/auth-context.tsx:93 | true iff a user is signed in |
| AuthContext.AuthSession.Login | lib/auth-context.tsx:68-82 | success iff the credentials match; a success signs in that user with no error; a failure leaves the user unchanged and reports "Invalid email or password" |
| AuthContext.AuthSession.Logout | lib/auth-context.tsx:84-93 | nobody is signed in afterwards, and the session is not authenticated |
| Header.FirstChars | components/header.tsx:33-35 | one character per non-empty piece, its first, in order |
| Header.Initials | components/header.tsx:31-37 | the avatar initials; InitialsShape states their shape |
| Header.InitialsShape | components/header.tsx:31-37 | the initials are the upper-cased first letters of the non-empty words, never more than the pieces; an empty name gives none; a single word gives its first letter |
| Header.ThemeTitle | components/header.tsx:56 | the title of the theme button; ThemeTitleOffersOther states it |
| Header.ThemeTitleOffersOther | components/header.tsx:56 | the title offers light mode in the dark theme and dark mode otherwise |
| Header.ShowUnreadBadge | components/header.tsx:64-66 | whether the bell's badge shows; UnreadBadgeIff states when |
| Header.UnreadBadgeIff | components/header.tsx:64 | the badge shows iff some notification is unread |
| MobileSidebar.VisibleNavigation | components/mobile-sidebar.tsx:50-54 | the menu items the user may see; NavigationByRole states which |
| MobileSidebar.FirstThreeShown | components/mobile-sidebar.tsx:16-54 | Overview, Budgets and Anomalies pass the menu filter for every user and for nobody |
| MobileSidebar.VisibleSplit | components/mobile-sidebar.tsx:16-54 | the filtered menu is the first three items followed by whatever the filter keeps of the last |
| MobileSidebar.LastItemShown | components/mobile-sidebar.tsx:16-54 | "Reports" passes the filter exactly for the finance head |
| MobileSidebar.NavigationByRole | components/mobile-sidebar.tsx:16-54 | the finance head sees all four items; anyone else or nobody sees Overview, Budgets, Anomalies in that order |
| MobileSidebar.Render | components/mobile-sidebar.tsx:38-107 | nothing when closed; otherwise the filtered menu, each badge shown iff its condition holds (the feedback one only for the HR admin) and carrying its count |
| MobileSidebar.RenderForStore | components/mobile-sidebar.tsx:24-91 | for a store, nothing when closed; when open, the visible items, the anomalies badge iff an anomaly is pending, the feedback badge iff the HR admin has a new report, the notifications badge iff something is unread |
| MobileSidebar.Avatar | components/mobile-sidebar.tsx:104 | the avatar letter; UserCard states when it is the first letter of the name shown |
| MobileSidebar.DisplayName | components/mobile-sidebar.tsx:106 | the name shown; UserCard states when it is blank |
| MobileSidebar.RoleLabel | components/mobile-sidebar.tsx:107 | the role shown; RoleLabelsDistinct states that it tells the roles apart |
| MobileSidebar.UserCard | components/mobile-sidebar.tsx:104-106 | the avatar is a single letter, a prefix of the name shown, exactly when a signed-in user has a non-empty name, and "JD" otherwise; the name shown is blank only for a signed-in user with an empty name |
| MobileSidebar.RoleLabelsDistinct | components/mobile-sidebar.tsx:107 | two users get the same role label iff they have the same role; nobody signed in gets the label of an employee and of no other role |
| Strings.NatToString | lib/budget-context.tsx:139 | a non-empty string of digits with no leading zero |
| Strings.NatToStringRoundTrip | lib/budget-context.tsx:139 | reading the digits back gives the number |
| Strings.NatToStringInjective | lib/budget-context.tsx:139-140 | different numbers have different spellings |
| Strings.PadStart | lib/budget-context.tsx:139 | pads on the left up to the width, never truncates, and ends in the original |
| Strings.LeadingZeros | lib/budget-context.tsx:139 | leading zeros do not change the value of a digit string |
| Strings.Trim | components/expense-form.tsx:63-80 | a contiguous piece of the input with only white space cut from its ends, and none left at either end |
| Strings.TrimEmpty | components/expense-form.tsx:63 | a description trims to nothing iff it is all white space |
| Strings.Split | components/report-preview.tsx:13 | at least one piece, none containing the separator, and joining them back gives the input |
| Strings.SplitWithoutSeparator | components/header.tsx:33 | a string without the separator is a single piece |
| Strings.JoinPrefix | components/report-preview.tsx:13 | joining the first pieces gives a prefix of the whole join |
| Strings.ToUpper | components/header.tsx:36 | same length, each ASCII letter upper-cased |
| Strings.ReplaceFirst | lib/budget-context.tsx:159 | a string without the character is kept; otherwise the result is the input with the character at some position i replaced, where no earlier position holds it |

## Left out

- Ids, dates, times and the year are parameters, so the model does not reproduce
  the equal ids of an expense, anomaly and notification created in the same
  millisecond.
- React scheduling is not modelled: updater functions, batching, and StrictMode
  running the `setBudgets` updater twice. Each mutator is one atomic step whose new
  state the next call sees.
- BudgetContext.BudgetStore.AddFeedbackReport: takes the report count from the state
  the call sees. The source captures `feedbackReports` in a closure, so two calls
  before a re-render would reuse one code. The model does not capture that.
- The view getters `getBudgetExpenses`, `getTotalAllocated`, `getTotalSpent`,
  `generateTrackingCode` and `getFeedbackByStatus` are functions of the store. Their
  properties are stated on the functions they call (`BudgetExpenses`,
  `ChargeAllAllocated`, `ChargeAllSpent`, `TrackingCodeFormat`, `FeedbackByStatus`).
- `getTotalAllocated` and `getTotalSpent` sum with `reduce`. `Sum` adds left to right,
  as `reduce` does; floating-point rounding is not modelled.
- `parseFloat`, `toLocaleString`, `toFixed` and floating point in general are not
  modelled. Amounts are exact reals.
- ExpenseForm.Validate: treats the amount as already parsed.
- NotificationList.FormatTimestamp: takes the time already parsed, as milliseconds
  since the epoch, or none for a string that `new Date` cannot parse
  (components/notification-list.tsx:27). Date-string parsing is not modelled.
- The `console.log` of the submitted data and the `console.error` of a failed
  submission (components/expense-form.tsx:86-87 and
  components/expense-form.tsx:108) are console output and are
  not modelled.
- Header.Initials and MobileSidebar.Avatar: take the first `char` of a string. JavaScript's
  `n[0]` and `charAt(0)` take the first UTF-16 code unit, which for a character outside
  the Basic Multilingual Plane is half of it; strings here are sequences of whole
  characters, so that split is not modelled.
- Strings.ToUpper: upper-cases ASCII letters only. JavaScript's full Unicode case
  mapping is not modelled; names outside ASCII keep their case.
- Nothing restores the session: the localStorage persistence of the signed-in user,
  the restore on start and the `isLoading` flag are browser state.
- The 800 ms delay of `login` is a timer and is not modelled.
- The theme context and its toggle are not modelled; the theme is a parameter of
  `Header.ThemeTitle`.
- The body-overflow effect of the mobile sidebar is not modelled.
- Rendering is not modelled: the JSX, the charts, icon components, class names
  beyond the status colours, and the notes textarea of the report dialog.
- Other parts of the repository are not part of this model:
  - the pages;
  - the budget and feedback forms;
  - the desktop sidebar;
  - the stats cards and the budget table;
  - the Supabase status checker.

## Findings

| source | as written | input that shows it | evidently intended | confidence | as-written member | corrected member |
|---|---|---|---|---|---|---|
| components/expense-form.tsx:103 | `await reloadData()` calls a member the store context does not define, so it throws after the expense was added; the `catch` shows "Failed to add expense. Please try again." and `onSuccess` never runs | a valid form (budget "b1", description "Pizza", amount 50) against an active budget of 500 | the expense is added, no error is shown and `onSuccess` is called | not executed | ExpenseForm.ExpenseDialog.SubmitAsWritten, ExpenseForm.SubmitReportsFailureAfterAdding | ExpenseForm.ExpenseDialog.Submit |
