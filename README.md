# Smart Move Transport — a verified model of the rental app's rules

Smart Move Transport is a single-page car-rental application. Its public side
has a vehicle catalog, a car details page with an image gallery, a home page
hero slider and a four-step booking wizard with an offline queue. Its admin
side has a dashboard, reports, analytics, a fleet editor, pricing, expense
and booking management, a notification list and a streaming AI chat. An
authentication context decides who may enter the admin pages.

This project models the rules inside those pages as Dafny, and proves what
they promise. The data store, the browser and the network become parameters:
row lists the gateway returned, whether an insert failed, the role-check
answer, the stored mock admin, whether the client is online, the chunks of a
streamed response, and a parse oracle for the JSON of each streamed line.

The modules follow the program:

- `Common` holds the JavaScript string and list primitives the pages use:
  `trim`, `toLowerCase`, `includes`, `split`, `join`, `indexOf`, `parseInt`,
  number-to-string and `filter`.
- `Catalog` is the constant car table and `getCarById`.
- `Booking` holds the wizard's pure rules (price, guards, duration picker,
  submission record) and the class `BookingWizard`. The class holds the
  step, the draft, the flags and the pending queue, which its handlers update
  in place.
- `Rows` is the shared layer of the three report pages:
  - the gateway row shapes;
  - a per-car tally whose keys keep insertion order, as a JavaScript object's do;
  - the `forEach` loops that fill the tallies, as methods with loop invariants.
- `Sorting` models the two sorts the report pages use. One is non-increasing
  by an integer key; the other is ascending by a string key, with
  `localeCompare` read as code-point order. It also proves that a sum does
  not change when its list is reordered.
- `Reports`, `Analytics` and `Dashboard` model the three aggregations, and
  the CSV export.
- `Expenses`, `Fleet`, `Pricing` and `BookingsAdmin` model the four admin
  lists. Each has its validators, payload normalization, filters and counts,
  and an editor-dialog class for the page's form state. `BookingsAdmin` also
  has the stored table that status and driver updates change.
- `Notifications` models the top bar's list: the unread count, mark-as-read
  and the realtime prepend.
- `Chat` models the assistant's message list. It also models the decoder for
  server-sent event lines on a growing buffer: the inner `while` loop as a
  method, proved equal to a recursive pass function.
- `Auth` is the authentication state class with the mock admin account.
  `Routing` holds the admin layout decision, which the routes mount around
  every admin page, and the route guard `ProtectedRoute`, which no route mounts.
- `Carousel` models the hero slider and the car gallery, as index
  arithmetic plus two small classes.

Some behaviour of the code follows from the proofs and is worth knowing:

- In the chat decoder, a `data:` line whose JSON does not parse is put back
  at the front of the buffer. Every later pass then stops at that line
  again, whatever chunks arrive (`Chat.MalformedLineStalls`).
- A `data:` field with no space after the colon is skipped. Section 9.2 of
  the WHATWG HTML Living Standard would read it (`Chat.NoSpaceSkipped`).
- `[DONE]` ends only the current pass over the buffer. Later chunks of the
  same response are still read.
- Signing in with the mock email but another password goes to the gateway.
  A successful gateway sign-in for that email then still makes the user an
  admin, through the email check in `checkAdmin` (`Auth.AuthState.SignIn`,
  `Auth.AdminRules`).
- The booking wizard's reconnect effect empties the pending queue without
  sending its entries (`Booking.BookingWizard.SyncOnReconnect`).
- The admin pages are guarded only by the admin layout, which sends a
  signed-in non-admin to `/login`. The route guard `ProtectedRoute` is
  defined but no route mounts it. If it were mounted on an admin route it
  would send the same user to `/` instead. This difference is latent, not
  something a user sees (`Routing.GatesAgree`).

## Model

| member | source | states |
|---|---|---|
| Catalog.Find | src/data/cars.ts:116-118 | `find` returns an entry with the id and, among the entries, the first; it returns nothing exactly when no entry has the id |
| Catalog.GetCarById | src/data/cars.ts:116-118 | the car found has the requested id and is in the catalog; the lookup returns nothing exactly when no catalog entry has that id |
| Catalog.CatalogIdsDistinct | src/data/cars.ts:15-114 | no two catalog entries share an id |
| Catalog.LookupUnique | src/data/cars.ts:116-118 | looking up any catalog entry's id returns that very entry |
| Catalog.CatalogImages | src/data/cars.ts:25-110 | every entry has at least two gallery images |
| Catalog.CatalogRatesPositive | src/data/cars.ts:21-105 | every entry has positive hour, day and trip rates |
| Booking.DurationOptions | src/pages/Booking.tsx:343-347 | the picker has 30 entries for the day plan and 24 otherwise |
| Booking.DurationRange | src/pages/Booking.tsx:343-347 | a duration is offered exactly when it lies in 1..30 for days and 1..24 for hours or trips |
| Booking.DurationLabelRules | src/pages/Booking.tsx:82-88 | the label is the plan's unit, singular exactly for a duration of 1 |
| Booking.PriceIsRateTimesDuration | src/pages/Booking.tsx:62-72 | the price is 0 without a selected catalog car, and otherwise that car's rate for the plan times the duration |
| Booking.PricePositiveForCatalogCar | src/pages/Booking.tsx:62-72 | for a duration of at least 1, the price is positive exactly when a catalog car is selected |
| Booking.GuardTable | src/pages/Booking.tsx:90-97 | step 0 needs a car; step 1 needs name, phone and pickup, and not email or dropoff; step 2 needs date, time and a positive duration; step 3 always passes |
| Booking.ChoosePlanResets | src/pages/Booking.tsx:283 | after a plan change the duration is 1, and it is one the new plan's picker offers |
| Booking.PayloadRules | src/pages/Booking.tsx:101-114 | the record sends days as 24 hours each; each optional field is null exactly when empty and otherwise the form's value; name, pickup place and date are copied; status `pending`; the computed price; the signed-in user's id, or null when anonymous |
| Booking.GuardsFillPayload | src/pages/Booking.tsx:90-114 | a draft that passed the car, contact and schedule guards sends its car, name, phone, pickup place, date and time, a positive duration in hours, and a positive price for a catalog car |
| Booking.BookingWizard.constructor | src/pages/Booking.tsx:46-60 | a new wizard is at step 0 with the car from the query (or none), duration 1 and plan hour, not submitted, with the stored queue |
| Booking.BookingWizard.Next | src/pages/Booking.tsx:416-417 | the step advances by one exactly when it is below the last and the guard holds; nothing else changes, and the step stays in 0..3 |
| Booking.BookingWizard.Previous | src/pages/Booking.tsx:410-411 | the step goes back by one from step 1 on, and otherwise stays; nothing else changes |
| Booking.BookingWizard.SelectCar | src/pages/Booking.tsx:208 | only the draft's car changes |
| Booking.BookingWizard.EditDetails | src/pages/Booking.tsx:233-263 | only the draft's client fields and time change |
| Booking.BookingWizard.PickDate | src/pages/Booking.tsx:313 | only the draft's date changes |
| Booking.BookingWizard.ChoosePlan | src/pages/Booking.tsx:283 | the plan changes and the duration becomes 1; nothing else changes |
| Booking.BookingWizard.ChooseDuration | src/pages/Booking.tsx:338-347 | only the duration changes, to one of the plan's options |
| Booking.BookingWizard.Submit | src/pages/Booking.tsx:99-132 | offline, exactly one entry (record plus creation time) is appended to the queue, nothing is sent and the wizard is submitted; online, the record is sent, and a failed insert leaves `isSubmitted` as it was and shows the error, while a successful one submits it; the draft is untouched and `submitting` ends false |
| Booking.BookingWizard.SyncOnReconnect | src/pages/Booking.tsx:135-143 | when online the queue becomes empty and nothing is sent; offline it is kept; nothing else changes |
| Booking.CalculatePrice | src/pages/Booking.tsx:64-72 | `calculatePrice`; definition, its properties are in Booking.PriceIsRateTimesDuration and Booking.PricePositiveForCatalogCar |
| Booking.DurationLabel | src/pages/Booking.tsx:82-88 | `getDurationLabel`; definition, its properties are in Booking.DurationLabelRules |
| Booking.CanProceed | src/pages/Booking.tsx:90-97 | `canProceed`; definition, its properties are in Booking.GuardTable and Booking.GuardsFillPayload |
| Booking.BuildPayload | src/pages/Booking.tsx:101-114 | `handleSubmit`'s record; definition, its properties are in Booking.PayloadRules and Booking.GuardsFillPayload |
| Rows.BookingEntries | src/pages/admin/Reports.tsx:37-41 | the `(car_id, Number(total_price \|\| 0))` entries of the bookings; definition, its properties are in Rows.TallyValue, Rows.TallyConserves and Reports.RowContents |
| Rows.ExpenseEntries | src/pages/admin/Reports.tsx:43-47 | the `(car_id, Number(amount \|\| 0))` entries of the expenses; definition, its properties are in Rows.TallyValue, Rows.TallyConserves and Reports.RowContents |
| Rows.AddTo | src/pages/admin/Reports.tsx:40 | one keyed row adds its amount to its own key only; a new key goes last and old keys keep their order |
| Rows.TallyOf | src/pages/admin/Reports.tsx:37-47 | the tally that a `forEach` builds lists each key once, and exactly the keys of its map |
| Rows.TallyKeys | src/pages/admin/Reports.tsx:40 | a key is in the tally exactly when some row with a truthy car id has it |
| Rows.TallyValue | src/pages/admin/Reports.tsx:37-47 | each key's value is the sum of the amounts filed under it, and 0 for a key without rows |
| Rows.TallyConserves | src/pages/admin/Reports.tsx:37-47 | the tally's values sum to the total of the rows that have a car |
| Rows.Put | src/pages/admin/Analytics.tsx:42-45 | an assignment sets one key, keeps an existing key in its place and appends a new one |
| Rows.UnionKeys | src/pages/admin/Reports.tsx:49 | the union holds exactly the keys of either list, with the first list's keys first in their order |
| Rows.UnionKeysDistinct | src/pages/admin/Reports.tsx:49 | the union of a duplicate-free key list with another list is duplicate-free |
| Rows.CarMapOf | src/pages/admin/Reports.tsx:30-31 | the car map's keys are exactly the car rows' ids |
| Rows.CollectCarMap | src/pages/admin/Reports.tsx:30-31 | the `forEach` over car rows builds exactly that car map |
| Rows.CarMapLastWins | src/pages/admin/Reports.tsx:31 | an id maps to the name of the last car row with that id |
| Rows.TallyBookings | src/pages/admin/Reports.tsx:37-41 | the booking loop leaves the per-car income tally and the total of every row's price |
| Rows.TallyExpenses | src/pages/admin/Reports.tsx:43-47 | the expense loop leaves the per-car expense tally and the total of every row's amount |
| Rows.NameOr | src/pages/admin/Reports.tsx:51 | `carMap[id] \|\| fallback`; definition, its properties are in Reports.RowContents and Analytics.UnknownNames |
| Rows.FindCar | src/pages/admin/PricingManagement.tsx:87 | the first car row with the id is found; nothing is found exactly when no row has it |
| Rows.CarLabel | src/pages/admin/BookingsManagement.tsx:65 | `cars.find(...)?.name \|\| fallback`: a null or unknown car gets the fallback, and any other label is the name of a car with that id; the bookings page's fallback is `—`, the expenses page's (ExpensesManagement.tsx line 95) `General Operations`, the pricing page's (PricingManagement.tsx line 87) `Unknown Vehicle` |
| Rows.CarLabelFirst | src/pages/admin/BookingsManagement.tsx:65 | the label is the first matching row's name when that is non-empty, and the fallback otherwise |
| Reports.RowsFor | src/pages/admin/Reports.tsx:50-54 | the unsorted per-car rows; definition, its properties are in Reports.RowContents and Reports.TableSortedByProfit |
| Reports.FetchReport | src/pages/admin/Reports.tsx:23-59 | the page's table is the sorted per-car rows, and the summary is the booking count and the totals of every row |
| Reports.IdsAreUnion | src/pages/admin/Reports.tsx:49 | the report ids are distinct, and they are exactly the truthy car ids of the booking or expense rows |
| Reports.NullCarNotTallied | src/pages/admin/Reports.tsx:37-47 | an id that no row carries gets no report row |
| Reports.RowContents | src/pages/admin/Reports.tsx:50-54 | each row's income and expense are that car's sums, its profit is their difference, and an id no car row has is named `Unknown` |
| Reports.TableSortedByProfit | src/pages/admin/Reports.tsx:50-55 | the table is a permutation of the unsorted rows, with profit non-increasing |
| Reports.TableProfit | src/pages/admin/Reports.tsx:54 | every row of the table has profit equal to income minus expense |
| Reports.TotalSplits | src/pages/admin/Reports.tsx:37-41 | the summary total is the per-car part plus the rows without a car |
| Reports.PerCarIncomeAddsUp | src/pages/admin/Reports.tsx:37-41 | the per-car incomes add up to the income of the bookings that have a car |
| Reports.CsvLines | src/pages/admin/Reports.tsx:62-63 | the comma-joined lines of the table; definition, its properties are in Reports.CsvLinesRoundTrip and Reports.CsvFieldsRoundTrip |
| Reports.CsvLinesRoundTrip | src/pages/admin/Reports.tsx:62-63 | a CSV text split on line breaks is the header `Car,Income,Expenses,Profit` followed by the rows' lines, provided no name holds a line break |
| Reports.CsvFieldsRoundTrip | src/pages/admin/Reports.tsx:62-63 | splitting a line on commas gives back the name and the three numbers, provided the name holds no comma |
| Reports.ReportRows | src/pages/admin/Reports.tsx:49-55 | the sorted per-car table; definition, its properties are in Reports.RowContents, Reports.TableSortedByProfit and Reports.IdsAreUnion |
| Reports.CsvText | src/pages/admin/Reports.tsx:62-63 | the exported CSV text; definition, its properties are in Reports.CsvLinesRoundTrip and Reports.CsvFieldsRoundTrip |
| Analytics.Entries | src/pages/admin/Analytics.tsx:46-47 | `Object.entries` of a tally; definition, its properties are in Analytics.ChartBars and Analytics.TopNameIsMaximal |
| Analytics.ChartRows | src/pages/admin/Analytics.tsx:36-37 | the `map` from entries to chart rows; definition, its properties are in Analytics.ChartBars and Analytics.UnknownNames |
| Analytics.ProfitMap | src/pages/admin/Analytics.tsx:42-45 | the profit map is well formed: each key once, exactly the keys of its map |
| Analytics.FetchData | src/pages/admin/Analytics.tsx:15-54 | the loops leave exactly the charts and insights that the rows determine |
| Analytics.FillProfitMap | src/pages/admin/Analytics.tsx:43-45 | the `forEach` fills exactly that profit map |
| Analytics.ProfitMapContents | src/pages/admin/Analytics.tsx:42-45 | with distinct ids the profit map lists the ids in order, each with income minus expense (missing as 0) |
| Analytics.ProfitIds | src/pages/admin/Analytics.tsx:43 | the profit map covers every car id of either map, once each |
| Analytics.TopNameIsMaximal | src/pages/admin/Analytics.tsx:46-51 | the insight is `N/A` without entries, and otherwise the name of an entry whose value is maximal |
| Analytics.TopOfProfits | src/pages/admin/Analytics.tsx:46-50 | for distinct ids, the top name is of an id with maximal profit, or `N/A` without ids |
| Analytics.TopOfExpenses | src/pages/admin/Analytics.tsx:47-51 | the top name is of an id with maximal expense, or `N/A` without ids |
| Analytics.MostProfitable | src/pages/admin/Analytics.tsx:42-50 | `mostProfitable` names a car whose profit no id of either map exceeds, and is `N/A` when there are no ids |
| Analytics.HighestCost | src/pages/admin/Analytics.tsx:47-51 | `highestCost` names a car whose expense no id exceeds, and is `N/A` for an empty expense map |
| Analytics.ChartBars | src/pages/admin/Analytics.tsx:28-37 | the income chart has one bar per car id of the bookings and the cost chart one per car id of the expenses, each named after its car or `Unknown` and carrying the sum of that car's amounts |
| Analytics.UnknownNames | src/pages/admin/Analytics.tsx:36-50 | a chart bar carries its car's income, and an id no car row has is `Unknown` on the chart but `''` in the insights |
| Analytics.TotalBookings | src/pages/admin/Analytics.tsx:52 | `totalBookings` counts every booking row, with or without a car |
| Analytics.AnalyticsOf | src/pages/admin/Analytics.tsx:22-53 | the page's charts and insights; definition, its properties are in Analytics.ChartBars, Analytics.MostProfitable, Analytics.HighestCost and Analytics.TotalBookings |
| Analytics.TopName | src/pages/admin/Analytics.tsx:50-51 | the insight name of a sorted list; definition, its properties are in Analytics.TopNameIsMaximal |
| Dashboard.StatsAreTotals | src/pages/admin/Dashboard.tsx:65-79 | income and expenses are the sums over every row (null as 0), equal to the Reports totals; the booking count is the row count, and net profit is income minus expenses |
| Dashboard.MonthOf | src/pages/admin/Dashboard.tsx:96 | no key for a missing or empty date; otherwise the key is the date's first seven characters, or the whole date when it is shorter |
| Dashboard.SameMonthKey | src/pages/admin/Dashboard.tsx:96-99 | two full dates share a bucket exactly when their `YYYY-MM` parts agree, and that part is the key |
| Dashboard.Touch | src/pages/admin/Dashboard.tsx:98 | a missing month gets a zero bucket at the end of the key order; no month's figures change |
| Dashboard.MonthMapOf | src/pages/admin/Dashboard.tsx:94-108 | the month map lists each month once, with exactly the keys of its map |
| Dashboard.Points | src/pages/admin/Dashboard.tsx:112-115 | the chart points of the sorted months; definition, its properties are in Dashboard.BucketSums, Dashboard.ChartMonths and Dashboard.ChartConserves |
| Dashboard.FetchChartData | src/pages/admin/Dashboard.tsx:90-117 | the two loops and the sort give exactly the chart that the rows determine |
| Dashboard.BucketBookings | src/pages/admin/Dashboard.tsx:95-101 | the bookings loop performs the income pass over the month map |
| Dashboard.BucketExpenses | src/pages/admin/Dashboard.tsx:102-108 | the expenses loop performs the expense pass over the month map |
| Dashboard.BucketSums | src/pages/admin/Dashboard.tsx:94-108 | each month's bucket holds the sum of that month's booking prices and of its expense amounts, and an untouched month reads as zero |
| Dashboard.ChartMonths | src/pages/admin/Dashboard.tsx:110-111 | the chart lists, once each and in strictly ascending key order, exactly the months that some dated booking or expense falls in |
| Dashboard.ChartConserves | src/pages/admin/Dashboard.tsx:94-115 | summed over the chart, the incomes are the total of the dated bookings and the expenses the total of the dated expenses |
| Dashboard.FetchStats | src/pages/admin/Dashboard.tsx:65-79 | the four stat cards; definition, its properties are in Dashboard.StatsAreTotals |
| Dashboard.ChartData | src/pages/admin/Dashboard.tsx:94-115 | the monthly chart; definition, its properties are in Dashboard.ChartMonths, Dashboard.ChartConserves and Dashboard.BucketSums |
| Sorting.SortDesc | src/pages/admin/Reports.tsx:55 | sorting is a permutation of its input |
| Sorting.SortDescSorted | src/pages/admin/Analytics.tsx:46-47 | the sorted list is non-increasing by its key |
| Sorting.SortDescHeadMax | src/pages/admin/Analytics.tsx:46-51 | the first element after sorting is an input whose key is maximal |
| Sorting.LessTotal | src/pages/admin/Dashboard.tsx:111 | two different keys are ordered one way or the other |
| Sorting.LessTransitive | src/pages/admin/Dashboard.tsx:111 | the key order is transitive |
| Sorting.SortAsc | src/pages/admin/Dashboard.tsx:111 | the ascending sort is a permutation of its input |
| Sorting.SortAscSorted | src/pages/admin/Dashboard.tsx:110-111 | the ascending sort of distinct keys is strictly ascending |
| Sorting.SumByPermutation | src/pages/admin/Reports.tsx:55 | reordering a list leaves any sum over it unchanged |
| Expenses.PayloadCar | src/pages/admin/ExpensesManagement.tsx:60-65 | the car is null exactly for `general` or ''; any other value is sent as is, and so are amount and description |
| Expenses.EditRoundTrip | src/pages/admin/ExpensesManagement.tsx:256 | editing a stored expense and saving it sends its own values back, with a car of '' or `general` as null |
| Expenses.FilterMembership | src/pages/admin/ExpensesManagement.tsx:96-99 | a row is listed exactly when its car matches (`all`: any; `general`: none; otherwise equal) and its description contains the search ignoring case |
| Expenses.FilterKeepsOrder | src/pages/admin/ExpensesManagement.tsx:96-100 | the filtered list is a subsequence of the expenses |
| Expenses.NoFilter | src/pages/admin/ExpensesManagement.tsx:96-100 | `all` with an empty search lists every row |
| Expenses.TotalOfFiltered | src/pages/admin/ExpensesManagement.tsx:102 | the total counts exactly the filtered rows: with the rows left out it makes up the total of all rows |
| Expenses.ExpenseEditor.constructor | src/pages/admin/ExpensesManagement.tsx:37-39 | the page starts with an empty form dated today, no edited row and the dialog closed |
| Expenses.ExpenseEditor.SetOpen | src/pages/admin/ExpensesManagement.tsx:113 | opening keeps the edit; closing forgets the edited id; the form is kept |
| Expenses.ExpenseEditor.EditFields | src/pages/admin/ExpensesManagement.tsx:127-157 | only the form changes |
| Expenses.ExpenseEditor.StartEdit | src/pages/admin/ExpensesManagement.tsx:256 | the form is prefilled from the row (null car as ''), the id is taken and the dialog opens |
| Expenses.ExpenseEditor.Save | src/pages/admin/ExpensesManagement.tsx:54-76 | an amount of 0 or less or an empty description writes nothing and changes nothing; otherwise it updates the edited row or inserts, closes the dialog and resets the form to `general` |
| Expenses.EditThenSave | src/pages/admin/ExpensesManagement.tsx:54-76 | editing a valid row and saving updates that row with its own values |
| Expenses.PayloadOf | src/pages/admin/ExpensesManagement.tsx:60-65 | the saved record; definition, its properties are in Expenses.PayloadCar and Expenses.EditRoundTrip |
| Expenses.Filtered | src/pages/admin/ExpensesManagement.tsx:96-100 | the listed rows; definition, its properties are in Expenses.FilterMembership, Expenses.FilterKeepsOrder and Expenses.NoFilter |
| Expenses.TotalAmount | src/pages/admin/ExpensesManagement.tsx:102 | the footer total; definition, its properties are in Expenses.TotalOfFiltered |
| Fleet.TrimAll | src/pages/admin/CarsManagement.tsx:103 | `.map((f) => f.trim())`; definition, its properties are in Fleet.ParsedFeaturesAreGood and Fleet.FeaturesRoundTrip |
| Fleet.ParsedFeaturesAreGood | src/pages/admin/CarsManagement.tsx:103 | every parsed feature is non-empty, trimmed and free of commas |
| Fleet.FeaturesRoundTrip | src/pages/admin/CarsManagement.tsx:136 | joining good features with `, ` and parsing the text gives them back |
| Fleet.ParseJoinParse | src/pages/admin/CarsManagement.tsx:103 | parsing, joining and parsing again gives the first parse |
| Fleet.PayloadImage | src/pages/admin/CarsManagement.tsx:104-113 | an empty image is sent as null with no images, any other as itself and `[image]`; the features are the parsed text; name, type and seats pass through |
| Fleet.EditRoundTrip | src/pages/admin/CarsManagement.tsx:130-142 | editing a car with good features and saving sends its own name, type, seats, features, image and status back |
| Fleet.SeatsInput | src/pages/admin/CarsManagement.tsx:209 | a positive count typed in is kept; an empty, `0` or unparsable input becomes 5; otherwise the seats are the number the input starts with, so they are never 0 |
| Fleet.FilterMembership | src/pages/admin/CarsManagement.tsx:161-166 | a car is listed exactly when the search is a case-insensitive substring of its name or type and the status filter is `all` or its status; the list keeps the page's order |
| Fleet.NoFilter | src/pages/admin/CarsManagement.tsx:161-166 | an empty search with `all` lists every car |
| Fleet.FleetStatsBound | src/pages/admin/CarsManagement.tsx:168-172 | total is the list length, available and in-maintenance count their statuses, and together they are at most the total |
| Fleet.CarEditor.constructor | src/pages/admin/CarsManagement.tsx:47-53 | the editor starts with the empty form, no edited car and the dialog closed |
| Fleet.CarEditor.SetOpen | src/pages/admin/CarsManagement.tsx:181 | closing forgets the edited id and resets the form; opening keeps both |
| Fleet.CarEditor.EditFields | src/pages/admin/CarsManagement.tsx:196-268 | only the form changes |
| Fleet.CarEditor.EditSeats | src/pages/admin/CarsManagement.tsx:209 | only the seats change, to the parsed input or 5 |
| Fleet.CarEditor.UploadDone | src/pages/admin/CarsManagement.tsx:88 | only the image field changes, to the public URL |
| Fleet.CarEditor.StartEdit | src/pages/admin/CarsManagement.tsx:130-142 | the form is prefilled from the car (null description or image as '', features joined with `, `), the id is taken and the dialog opens |
| Fleet.CarEditor.Save | src/pages/admin/CarsManagement.tsx:97-128 | an empty name or type writes nothing; otherwise the payload updates the edited car or is inserted; only a write without an error closes the dialog and resets the form |
| Fleet.ParseFeatures | src/pages/admin/CarsManagement.tsx:103 | the parsed feature list; definition, its properties are in Fleet.ParsedFeaturesAreGood, Fleet.FeaturesRoundTrip and Fleet.ParseJoinParse |
| Fleet.PayloadOf | src/pages/admin/CarsManagement.tsx:104-113 | the saved record; definition, its properties are in Fleet.PayloadImage and Fleet.EditRoundTrip |
| Fleet.SeatsFromInput | src/pages/admin/CarsManagement.tsx:209 | `parseInt(value) \|\| 5`; definition, its properties are in Fleet.SeatsInput |
| Fleet.Filtered | src/pages/admin/CarsManagement.tsx:161-166 | the listed cars; definition, its properties are in Fleet.FilterMembership and Fleet.NoFilter |
| Fleet.StatsOf | src/pages/admin/CarsManagement.tsx:168-172 | the three statistics; definition, its properties are in Fleet.FleetStatsBound |
| Pricing.FilterContents | src/pages/admin/PricingManagement.tsx:51 | `all` lists every rule; any other selection lists, in order, exactly the rules for that car |
| Pricing.PayloadOptional | src/pages/admin/PricingManagement.tsx:59 | an empty location or notes is sent as null, any other value as is |
| Pricing.EditRoundTrip | src/pages/admin/PricingManagement.tsx:255 | editing a rule and saving sends its own values back, and the save is allowed exactly when it has a car and a positive amount |
| Pricing.TypeCounts | src/pages/admin/PricingManagement.tsx:182-184 | each count is the number of rules of that type, and the three together are at most the number of rules |
| Pricing.RuleEditor.constructor | src/pages/admin/PricingManagement.tsx:34-36 | the editor starts with the initial form, no edited rule and the dialog closed |
| Pricing.RuleEditor.SetOpen | src/pages/admin/PricingManagement.tsx:109 | closing forgets the edited id; the form is kept |
| Pricing.RuleEditor.EditFields | src/pages/admin/PricingManagement.tsx:123-165 | only the form changes |
| Pricing.RuleEditor.StartEdit | src/pages/admin/PricingManagement.tsx:254-257 | the form is prefilled from the rule (null location or notes as ''), the id is taken and the dialog opens |
| Pricing.RuleEditor.Save | src/pages/admin/PricingManagement.tsx:53-69 | no car or an amount of 0 or less writes nothing; otherwise it updates or inserts, closes the dialog and resets the form |
| Pricing.PayloadOf | src/pages/admin/PricingManagement.tsx:59 | the saved record; definition, its properties are in Pricing.PayloadOptional and Pricing.EditRoundTrip |
| Pricing.Filtered | src/pages/admin/PricingManagement.tsx:51 | the listed rules; definition, its properties are in Pricing.FilterContents |
| Pricing.CountOf | src/pages/admin/PricingManagement.tsx:182-184 | the per-type counts; definition, its properties are in Pricing.TypeCounts |
| BookingsAdmin.SetStatus | src/pages/admin/BookingsManagement.tsx:55-56 | the table keeps its length |
| BookingsAdmin.SetDriver | src/pages/admin/BookingsManagement.tsx:61-62 | the table keeps its length |
| BookingsAdmin.FilterMembership | src/pages/admin/BookingsManagement.tsx:67-71 | a booking is listed exactly when the status filter is `all` or its status, and the search is empty or a case-insensitive substring of the client name; the order is kept and no filter lists all |
| BookingsAdmin.Transitions | src/pages/admin/BookingsManagement.tsx:130-138 | the offered actions are pending to approved or rejected and approved to completed, and none for any other status |
| BookingsAdmin.ActionAdvances | src/pages/admin/BookingsManagement.tsx:130-138 | every offered action moves a booking strictly forward |
| BookingsAdmin.ChainIsShort | src/pages/admin/BookingsManagement.tsx:130-138 | a run of offered actions visits at most three statuses, none twice |
| BookingsAdmin.RanksIncrease | src/pages/admin/BookingsManagement.tsx:130-138 | along a run of actions the rank grows by at least one per step |
| BookingsAdmin.SetStatusOnlyStatus | src/pages/admin/BookingsManagement.tsx:55-56 | `updateStatus` changes the status of the rows with that id and nothing else, and a missing id changes nothing |
| BookingsAdmin.SetDriverOnlyDriver | src/pages/admin/BookingsManagement.tsx:61-62 | `updateDriver` changes the driver of the rows with that id and nothing else, and a missing id changes nothing |
| BookingsAdmin.UpdatesCommute | src/pages/admin/BookingsManagement.tsx:55-62 | setting a status twice is setting it once, and status and driver updates commute |
| BookingsAdmin.BookingTable.constructor | src/pages/admin/BookingsManagement.tsx:10-20 | the table holds the given rows |
| BookingsAdmin.BookingTable.UpdateStatus | src/pages/admin/BookingsManagement.tsx:55-59 | the stored table becomes the status update of the old one |
| BookingsAdmin.BookingTable.UpdateDriver | src/pages/admin/BookingsManagement.tsx:121-126 | the stored table becomes the driver update of the old one |
| BookingsAdmin.BookingTable.Act | src/pages/admin/BookingsManagement.tsx:130-138 | an offered action updates that row's status and moves it strictly forward |
| BookingsAdmin.Filtered | src/pages/admin/BookingsManagement.tsx:67-71 | the listed bookings; definition, its properties are in BookingsAdmin.FilterMembership |
| BookingsAdmin.OfferedActions | src/pages/admin/BookingsManagement.tsx:130-138 | the action buttons per status; definition, its properties are in BookingsAdmin.Transitions, BookingsAdmin.ActionAdvances and BookingsAdmin.ChainIsShort |
| Notifications.MarkRead | src/components/admin/AdminTopbar.tsx:54 | the list keeps its length |
| Notifications.MarkReadContents | src/components/admin/AdminTopbar.tsx:54 | entries with the id become read with every other field kept; all other entries are unchanged |
| Notifications.MarkReadIdempotent | src/components/admin/AdminTopbar.tsx:54 | marking twice is marking once |
| Notifications.MarkReadCount | src/components/admin/AdminTopbar.tsx:30-54 | the unread count drops by exactly the number of unread entries with that id, so it never grows |
| Notifications.PrependCount | src/components/admin/AdminTopbar.tsx:30-38 | the new entry comes first with the old list as the tail, and the unread count grows by one exactly when it is unread |
| Notifications.NotificationPanel.constructor | src/components/admin/AdminTopbar.tsx:29 | the list starts empty |
| Notifications.NotificationPanel.Load | src/components/admin/AdminTopbar.tsx:43-50 | an answer replaces the list, and no answer keeps it |
| Notifications.NotificationPanel.ReceiveInsert | src/components/admin/AdminTopbar.tsx:36-38 | the new entry is prepended, and the badge grows by one exactly when the entry is unread |
| Notifications.NotificationPanel.MarkAsRead | src/components/admin/AdminTopbar.tsx:52-55 | the list becomes its mark-read version, and the badge never grows |
| Notifications.UnreadCount | src/components/admin/AdminTopbar.tsx:30 | the badge count; definition, its properties are in Notifications.MarkReadCount and Notifications.PrependCount |
| Chat.DrainBuffer | src/components/ai/AIAssistant.tsx:75-106 | the inner loop computes exactly the recursive pass over the buffer |
| Chat.ReadLine | src/components/ai/AIAssistant.tsx:80-105 | the handling of one line, `\r` dropped, decides exactly as the line classifier: skip, stop at `[DONE]`, put back a malformed payload, or append a non-empty delta |
| Chat.ChatSession.constructor | src/components/ai/AIAssistant.tsx:18-20 | no messages, an empty input, not loading |
| Chat.ChatSession.Type | src/components/ai/AIAssistant.tsx:249 | only the input changes |
| Chat.ChatSession.SendMessage | src/components/ai/AIAssistant.tsx:33-117 | a blank input, a running request or being offline changes nothing; otherwise the trimmed input is appended as the user's message and cleared, the reply is decoded into the messages, and loading ends false |
| Chat.ClassifierAppendsNonEmpty | src/components/ai/AIAssistant.tsx:89-91 | a line only ever appends non-empty text |
| Chat.CommentSkipped | src/components/ai/AIAssistant.tsx:81 | a line starting with `:` is skipped |
| Chat.BlankSkipped | src/components/ai/AIAssistant.tsx:81 | a line of blanks is skipped |
| Chat.DoneLine | src/components/ai/AIAssistant.tsx:80-85 | a data line whose payload trims to `[DONE]` ends the pass, with or without a trailing `\r` |
| Chat.NoSpaceSkipped | src/components/ai/AIAssistant.tsx:82 | a `data:` line without a space after the colon is skipped |
| Chat.DataLine | src/components/ai/AIAssistant.tsx:84-91 | a data line whose payload parses to non-empty content appends that content |
| Chat.DrainStep | src/components/ai/AIAssistant.tsx:76-79 | a pass takes the first complete line off the front of the buffer and acts on it |
| Chat.DrainEnd | src/components/ai/AIAssistant.tsx:76 | a buffer without a line break is left as it is |
| Chat.DoneStops | src/components/ai/AIAssistant.tsx:85 | `[DONE]` ends the pass, leaving the lines after it in the buffer |
| Chat.MalformedPutBack | src/components/ai/AIAssistant.tsx:102-105 | a payload that does not parse ends the pass with its line, `\r` removed, back in front of the rest |
| Chat.MalformedLineStalls | src/components/ai/AIAssistant.tsx:102-105 | once a line is put back, every later pass stops at it again, whatever text is appended |
| Chat.DrainExtends | src/components/ai/AIAssistant.tsx:91 | the running text only grows |
| Chat.PartialLineStays | src/components/ai/AIAssistant.tsx:75-79 | a pass that runs out of lines leaves exactly the text after the last line break |
| Chat.DrainInOrder | src/components/ai/AIAssistant.tsx:75-79 | lines are processed in order: a fully consumed buffer followed by more text gives the pass over the more text that continues from its result |
| Chat.UpsertTwice | src/components/ai/AIAssistant.tsx:92-100 | a second update of the trailing assistant message replaces the first |
| Chat.UpsertKeeps | src/components/ai/AIAssistant.tsx:92-100 | every message but the last is kept, at most one is added, and the last is the assistant's with the text |
| Chat.DrainMessages | src/components/ai/AIAssistant.tsx:89-100 | after a pass the messages are the old ones when no delta arrived, and otherwise the old ones with the trailing assistant message set to the running text |
| Chat.StreamUpsert | src/components/ai/AIAssistant.tsx:69-107 | across all chunks the messages are the starting ones, updated once with the whole running text |
| Chat.StreamMessages | src/components/ai/AIAssistant.tsx:69-107 | after the user's message, a stream adds at most one assistant message, holding every delta in order |
| Chat.ReplyShape | src/components/ai/AIAssistant.tsx:53-116 | the exchange is the old messages, the user's message, at most one assistant message with the deltas, and one error message when the request failed |
| Chat.Classify | src/components/ai/AIAssistant.tsx:80-105 | what one complete line does; definition, its properties are in Chat.ReadLine, Chat.CommentSkipped, Chat.BlankSkipped, Chat.DoneLine, Chat.NoSpaceSkipped and Chat.DataLine |
| Chat.Act | src/components/ai/AIAssistant.tsx:81-105 | what a line without its `\r` does; definition, its properties are in the same lemmas as Chat.Classify |
| Chat.Upsert | src/components/ai/AIAssistant.tsx:92-100 | the `setMessages` updater; definition, its properties are in Chat.UpsertTwice and Chat.UpsertKeeps |
| Chat.Drain | src/components/ai/AIAssistant.tsx:75-106 | one pass of the inner loop; definition, its properties are in Chat.DrainBuffer, Chat.DrainStep, Chat.DrainEnd, Chat.DoneStops, Chat.MalformedPutBack, Chat.PartialLineStays, Chat.DrainInOrder and Chat.DrainMessages |
| Chat.Stream | src/components/ai/AIAssistant.tsx:69-107 | the outer reading loop; definition, its properties are in Chat.StreamUpsert and Chat.StreamMessages |
| Chat.Reply | src/components/ai/AIAssistant.tsx:53-116 | the messages after a request; definition, its properties are in Chat.ReplyShape and Chat.ChatSession.SendMessage |
| Auth.AdminRules | src/contexts/AuthContext.tsx:30-49 | the mock email or id is an admin whatever the role check says; anyone else is an admin exactly when the role check answered yes |
| Auth.AuthState.constructor | src/contexts/AuthContext.tsx:18-21 | nobody is signed in, not admin, loading, with whatever storage holds |
| Auth.AuthState.CheckAdmin | src/contexts/AuthContext.tsx:30-49 | the answer, which is also the new admin flag, is the admin rule; nothing else changes |
| Auth.AuthState.SignIn | src/contexts/AuthContext.tsx:105-131 | the mock credentials sign the mock admin in without the gateway, end loading and store it; other credentials return the gateway's error, are never admin on an error, and ask `checkAdmin` only after a successful sign-in with a user |
| Auth.AuthState.SignOut | src/contexts/AuthContext.tsx:145-151 | nobody is signed in, not admin, and the stored mock admin is removed |
| Auth.AuthState.OnAuthChange | src/contexts/AuthContext.tsx:55-71 | a signed-out event is ignored while a mock admin is stored; otherwise the session and user are taken, and admin is asked for again or cleared without a user |
| Auth.AuthState.InitializeAuth | src/contexts/AuthContext.tsx:74-95 | a stored mock admin takes precedence over any session; a session with a user is taken and asked about; loading ends false in every case |
| Auth.MockSurvivesSignedOutEvents | src/contexts/AuthContext.tsx:60-61 | after the mock sign-in, signed-out events leave the mock admin signed in |
| Auth.AdminAnswer | src/contexts/AuthContext.tsx:30-49 | `checkAdmin`'s decision; definition, its properties are in Auth.AdminRules and Auth.AuthState.CheckAdmin |
| Routing.ProtectedRoute | src/components/auth/ProtectedRoute.tsx:8-27 | the outlet is shown exactly when not loading, signed in, and an admin if the route is admin-only |
| Routing.RouteRules | src/components/auth/ProtectedRoute.tsx:11-27 | spinner while loading, `/login` without a user, `/` for a non-admin on an admin route, and the outlet for any user by default |
| Routing.AdminOnlyIsStricter | src/components/auth/ProtectedRoute.tsx:23-27 | an admin route admits no one a plain protected route refuses |
| Routing.AdminLayout | src/components/admin/AdminLayout.tsx:19-56 | the shell is shown exactly when not loading, signed in and an admin |
| Routing.AdminRedirect | src/components/admin/AdminLayout.tsx:13-17 | the only place the layout navigates to is `/login` |
| Routing.LayoutRules | src/components/admin/AdminLayout.tsx:13-38 | loading shows the loading screen and never navigates; after loading it navigates exactly when it renders nothing |
| Routing.GatesAgree | src/components/admin/AdminLayout.tsx:13-56 | the guard, were it mounted on an admin route, and the layout admit the same users, but would send a non-admin to `/` and `/login` respectively |
| Carousel.NextIdx | src/pages/Home.tsx:31 | the next index stays below the length |
| Carousel.PrevIdx | src/pages/Home.tsx:32 | the previous index stays below the length |
| Carousel.Steps | src/pages/CarDetails.tsx:31-32 | next is one on except from the last, which wraps to 0; previous is one back except from 0, which wraps to the last |
| Carousel.NextPrevInverse | src/pages/CarDetails.tsx:31-32 | previous undoes next and next undoes previous |
| Carousel.Ticks | src/pages/Home.tsx:24-29 | the index after some autoplay ticks is in range |
| Carousel.TicksCompose | src/pages/Home.tsx:24-29 | ticks compose: a then b ticks are a + b ticks |
| Carousel.TicksForward | src/pages/Home.tsx:24-29 | without wrapping, k ticks move k slides on |
| Carousel.TicksToFirst | src/pages/Home.tsx:24-29 | from any slide, enough ticks wrap to the first |
| Carousel.AutoplayCycles | src/pages/Home.tsx:24-29 | the autoplay returns to its start after one tick per slide and shows every slide on the way |
| Carousel.HeroCarousel.constructor | src/pages/Home.tsx:10-14 | the slider starts on the first slide |
| Carousel.HeroCarousel.Next | src/pages/Home.tsx:31 | the slide becomes the next index and stays in range |
| Carousel.HeroCarousel.Prev | src/pages/Home.tsx:32 | the slide becomes the previous index, from the first to the last |
| Carousel.HeroCarousel.Tick | src/pages/Home.tsx:26 | a tick makes the same step as the next arrow |
| Carousel.HeroCarousel.Dot | src/pages/Home.tsx:101 | a dot sets the slide to exactly its index |
| Carousel.PageFor | src/pages/CarDetails.tsx:16-29 | the not-found view shows exactly when the id is missing or no catalog entry has it; otherwise the page shows that catalog car |
| Carousel.DetailsShowControls | src/pages/CarDetails.tsx:69-104 | every car the page can show has more than one image, so its controls are shown |
| Carousel.ImageGallery.constructor | src/pages/CarDetails.tsx:16-29 | the gallery starts on the first of the car's images, of which there are at least two |
| Carousel.ImageGallery.NextImage | src/pages/CarDetails.tsx:31 | the image becomes the next index modulo the image count |
| Carousel.ImageGallery.PrevImage | src/pages/CarDetails.tsx:32 | the image becomes the previous index modulo the image count |
| Carousel.ImageGallery.Select | src/pages/CarDetails.tsx:92-109 | a dot or thumbnail sets the image to exactly its index |
| Catalog.CorollaEntry | src/data/cars.ts:83-89 | worked example: toyota-corolla is found, with rates 25 per hour, 120 per day and 60 per trip |
| Booking.CorollaExample | src/pages/Booking.tsx:62-72 | worked example: toyota-corolla by the hour for 3 costs 75; switching to days resets the duration to 1 and the price to 120 |
| Booking.TwoDaysAreFortyEightHours | src/pages/Booking.tsx:110 | worked example: two days are sent as 48 hours |
| Carousel.HeroWraps | src/pages/Home.tsx:10-32 | worked example: over three slides, next of 2 is 0, previous of 0 is 2, and 0 and 1 step on |

## Left out

- The gateway client is not part of this model: its answers (rows, insert outcomes, the role check, sessions) are parameters. The date-range filters, `order`, `limit` and `head` queries the pages send to it are not modelled.
- Network and storage I/O are not modelled:
  - `fetch` and reading the response stream in the chat;
  - `localStorage`; the queue and the stored mock admin are values;
  - the storage upload for car images; only its public URL is modelled;
  - the Blob download of the CSV;
  - the realtime channel subscription; only the insert handler is modelled.
- Concurrency and timing are not modelled: `Promise.all`, the `setTimeout` around `checkAdmin` (run inline here), the autoplay `setInterval` (a `Tick` method here), async ordering between auth callbacks, and the `isMounted` flag.
- Dates and locales are not modelled. Dates are opaque `YYYY-MM-DD` strings, and the chart keeps the `YYYY-MM` key rather than the `toLocaleString` month name.
- Sorting.SortAsc: `localeCompare` is modelled as code-point order on the month keys.
- Sorting.SortDesc: stability of `Array.prototype.sort` is not stated. The model is a stable insertion sort, but only sortedness and permutation are proved.
- Amounts are integers. `Number`, `parseFloat` and JavaScript floating point are not modelled.
- `toLowerCase` is modelled for ASCII letters only.
- `parseInt` is modelled in base 10: leading blanks, an optional sign, then the longest run of digits. The `0x` prefix, which `parseInt` reads as hexadecimal, is not modelled.
- JavaScript objects used as maps keep insertion order here. A JavaScript object lists integer-like keys first; that, and prototype keys, are not modelled.
- `JSON.parse` and the `choices[0].delta.content` lookup in the chat are a parse oracle, a parameter of the decoder.
- The chat leaves out the following:
  - text decoding of the streamed bytes; chunks arrive as strings;
  - the status code of a failed response, since only the one error text is shown;
  - the stale `messages` closure used for the request body.
- Chat.ChatSession.SendMessage: the order in which a thrown error interrupts a partly read stream is reduced to a `broken` flag that appends one error message after the chunks read.
- Auth leaves out `signUp`, a foreign call, and the `JSON.parse` of the stored mock user (the stored user is a value). The `replace` flag of the navigations is not modelled either.
- Analytics.FetchData ignores the totals that the shared tally loops also return, since the Analytics page does not compute them.
- The route table in `App.tsx` is not modelled. It mounts `AdminLayout` around the admin pages and never mounts `ProtectedRoute`, so `Routing.ProtectedRoute` describes a component the app does not use.
- The delete-confirmation flows (`handleDelete`, `confirmDelete`) of the admin lists are not modelled: they only call the gateway and refetch.
- Presentation is not modelled: layouts, animation, toasts, icons, theme, and the chart and table rendering.
