# Point-of-sale core, modelled in Dafny

This project models the logic of a small point-of-sale web application: a
cashier screen with a shopping cart, a checkout that writes a sale into a
hosted database and decrements stock, an inventory table that classifies
products by stock level, an analytics dashboard that aggregates sales, a
payment keypad, the product add/edit forms, the route guard, the
authentication outcomes, and the settings and theme preferences.

Everything the hosted database or the authentication service answers during
one call is an input to the model, so that each failure path can be taken on
purpose. The modules follow the source files, one module per file:

- `PosService` (lib/pos-service.ts): the checkout over an in-memory `Store`
  of the `transactions`, `transaction_items` and product stock tables; the
  direct stock update; the mapping of product rows to products.
- `MainPos` (app/mainpos/ClientMainPos.tsx): the sample catalogue, the
  de-duplication by name, the stock lookup, and the `Cart` class whose
  add / remove / remove-all updates keep every line within stock.
- `InventoryTable`: the in-stock / low-stock / out-of-stock classification and
  the search and status filter.
- `AnalyticsService` and `AnalyticsPage`: date windows, metrics, the revenue
  chart buckets, top and slow-moving products, growth figures and labels.
- `TransactionHistory`: the date-range and search filter of past sales.
- `PaymentWidget`: the amount keypad as a class.
- `AddProductModal`, `EditProductModal`, `ProductForm`: the product forms,
  their field updates and the validation that gates submission.
- `RouteGuard`, `SignupRoute`, `AuthAction`: the middleware redirects, the
  sign-up route handler and the login / sign-up / sign-out outcome trees.
- `SettingsPage`, `ThemeToggle`: stored preferences and how they are applied.
- Helper modules `Wrappers`, `Text`, `Seqs` and `Calendar` hold `Option`,
  JavaScript string helpers, generic filters and sorts, and calendar
  arithmetic on dates (year, month, day) and instants (a date and the
  milliseconds since its midnight).

`createTransaction` has no compensating step: when a line-item insert
answers with an error, or a call is rejected inside the loop, it returns an
error and leaves the transaction row, the earlier line items and their stock
decrements in place; the lemma `PosService.CheckoutStopsInLoop` states
exactly that. The comment on `uniqueProducts` says it keeps the first
product of each name, but a `Map` built from the list keeps the last one;
`MainPos.UniqueByName` follows the code.

## Model

| member | source | states |
|---|---|---|
| AnalyticsService.WeekStartIsTuesday | lib/analytics-service.ts:51-56 | as written, the "week" window goes back `daysToMonday + 6` days and so always starts on a Tuesday, 6 to 12 days back for the current week |
| AnalyticsService.WeekStartExample | lib/analytics-service.ts:51-56 | on Wednesday 15 January 2025 the current "week" window starts on Tuesday 7 January |
| AnalyticsService.PreviousStartNotLater | lib/analytics-service.ts:42-67 | for every period, the start of the previous window (offset 1) is not after the start of the current one |
| AnalyticsService.PreviousRangeCoversCurrent | lib/analytics-service.ts:35-78 | as written, every instant in the current window is also in the previous window (the previous window ends at the end of today) (also lines 108-109) |
| AnalyticsService.IntendedWeekStartsMonday | lib/analytics-service.ts:52-53 | going back `daysToMonday` days lands on a Monday, at most 6 days back for the current week |
| AnalyticsService.IntendedStartOrder | lib/analytics-service.ts:42-67 | corrected: the previous window starts on a strictly earlier day than the current one, both at midnight |
| AnalyticsService.IntendedRangesAdjacent | lib/analytics-service.ts:35-78 | corrected: the previous window ends on the day before the current one starts, and the two windows share no instant |
| AnalyticsService.UserIdsSpec | lib/analytics-service.ts:141-145 | the distinct user ids are exactly the non-null ids some row carries, and there are no more of them than rows |
| AnalyticsService.MetricsAverage | lib/analytics-service.ts:133-139 | the count is the number of rows; with rows, the average times the count is the revenue; with no rows revenue, average and customers are 0 |
| AnalyticsService.MetricsCustomers | lib/analytics-service.ts:141-151 | customers never exceed the rows and are 0 only with no rows; with some non-null id they are the number of distinct ids, with none they fall back to the row count |
| AnalyticsService.MetricsNonNegative | lib/analytics-service.ts:133-139 | with non-negative amounts the revenue and the average are non-negative |
| AnalyticsService.PreviousRevenueNotBelowCurrent | lib/analytics-service.ts:106-158 | as written, with non-negative amounts the "previous" revenue and count are never below the current ones |
| AnalyticsService.RevenueAdditive | lib/analytics-service.ts:133-137 | revenue and count of two row lists joined are the sums of their revenues and counts |
| AnalyticsService.HourLabelParts | lib/analytics-service.ts:204-207 | the hour shown is 1..12, "PM" exactly when the hour is 12 or more, and shown hour with meridiem gives the hour back |
| AnalyticsService.HourLabelExamples | lib/analytics-service.ts:204-207 | hour 0 is "12 AM", hour 12 is "12 PM", hour 13 is "1 PM" |
| AnalyticsService.HourLabelInjective | lib/analytics-service.ts:204-207 | different hours get different labels |
| AnalyticsService.ChartKeySame | lib/analytics-service.ts:202-232 | two rows share a bucket exactly when they share the hour (today), the weekday (week), the day of the month (month) or the month (year) |
| AnalyticsService.BucketSumIsFilteredSum | lib/analytics-service.ts:234 | a bucket's accumulated revenue is the sum of the amounts of exactly the rows with that key |
| AnalyticsService.BucketsTotalAdd | lib/analytics-service.ts:234 | adding an amount to one listed bucket adds the same amount to the sum of the buckets |
| AnalyticsService.PointsTotal | lib/analytics-service.ts:238-242 | the revenues of the points of `Object.entries(grouped)` add up to the sum of the buckets |
| AnalyticsService.GroupRevenue | lib/analytics-service.ts:196-242 | the points have distinct periods, each point's revenue is its bucket's sum, every row's key has a point, every point's period is some row's key, and the point revenues add up to the total revenue |
| AnalyticsService.GroupRow | lib/analytics-service.ts:198-235 | one turn of the `forEach` keeps the grouping invariant for one more row |
| AnalyticsService.GroupRows | lib/analytics-service.ts:196-235 | after the loop, `grouped` holds each key's bucket sum, keys in first-seen order, and the buckets add up to the rows' total |
| AnalyticsService.GroupRevenueDone | lib/analytics-service.ts:196-242 | a completed grouping yields points with all the properties `GroupRevenue` promises |
| AnalyticsService.GroupDoneSums | lib/analytics-service.ts:234-242 | after the loop no period is listed twice and each point carries its bucket's sum |
| AnalyticsService.GroupDoneKeys | lib/analytics-service.ts:234-242 | after the loop the points' periods are exactly the keys of the rows, in first-seen order |
| AnalyticsService.RevenueChart | lib/analytics-service.ts:171-252 | a failed query gives no points; otherwise the points are the buckets of the chosen period, with distinct periods, per-bucket sums, and total equal to the rows' revenue |
| AnalyticsService.ProductKey | lib/analytics-service.ts:340 | the grouping key is never empty: the product name when present and non-empty, and "Unknown" exactly otherwise |
| AnalyticsService.RowDetails | lib/analytics-service.ts:316-322 | a details entry copies the icon and takes the category name, or "Uncategorized" when it is missing or empty |
| AnalyticsService.ProductMap | lib/analytics-service.ts:315-323 | the product map has a key exactly for each product row's id |
| AnalyticsService.ProductMapLastWins | lib/analytics-service.ts:315-323 | an id's entry carries the details of the last row with that id |
| AnalyticsService.ProductMapFor | lib/analytics-service.ts:292-325 | the map stays empty when no item has a product id or the details query fails |
| AnalyticsService.DetailsFor | lib/analytics-service.ts:342-345 | an item whose product id is in the map gets its entry, any other item gets no icon and "Uncategorized" |
| AnalyticsService.BucketCountIsFilteredSum | lib/analytics-service.ts:354 | a group's units sold is the sum of the quantities of exactly the items with that name |
| AnalyticsService.FirstIndex | lib/analytics-service.ts:341 | the index returned is that of the first item with the name, or the item count when none has it |
| AnalyticsService.AddToGroup | lib/analytics-service.ts:354-355 | adding an item keeps name, icon and category and adds its quantity (missing as 0) and subtotal (non-numeric as 0) |
| AnalyticsService.NewGroup | lib/analytics-service.ts:341-353 | a new group is named by the key, takes the icon and category of the item's product details, and starts at 0 sold and 0 revenue |
| AnalyticsService.GroupByProduct | lib/analytics-service.ts:339-359 | one group per product name, in first-seen order, names distinct, every item's name has a group, and each group carries its first item's details and the sums of its items' quantities and subtotals |
| AnalyticsService.GroupProducts | lib/analytics-service.ts:339-356 | the grouping loop ends with every group's totals and details as the invariant describes |
| AnalyticsService.GroupByProductDone | lib/analytics-service.ts:339-359 | a completed grouping yields `Object.values(grouped)` with all the properties `GroupByProduct` promises |
| AnalyticsService.GroupByProductNames | lib/analytics-service.ts:339-359 | after the loop the values listed in key order are named by those keys |
| AnalyticsService.GroupByProductFirst | lib/analytics-service.ts:341 | each group's recorded first position is the first item with its name |
| AnalyticsService.GroupByProductOne | lib/analytics-service.ts:339-356 | each group after the loop is the group of its name (first item's details, summed quantity and subtotal) |
| AnalyticsService.TopSellingProducts | lib/analytics-service.ts:257-371 | a failed query gives `[]`; otherwise at most 5 groups with distinct names, sorted by units sold non-increasing, each the group of its name among the items in the period; every name sold is there or five groups that sold at least as many are |
| AnalyticsService.TopProductsDone | lib/analytics-service.ts:359-361 | the first five of the sorted groups number at most 5, are sorted by units sold, keep distinct names and are groups of the items |
| AnalyticsService.TopProductsComplete | lib/analytics-service.ts:359-361 | every name sold is among the top five, or the top five each sold at least as many units |
| AnalyticsService.TopProductsLeftOut | lib/analytics-service.ts:359-361 | a group left out of the top five sold no more units than each of the five |
| AnalyticsService.DaysWithoutSales | lib/analytics-service.ts:416-420 | the days without sales is the floor of the elapsed milliseconds over one day |
| AnalyticsService.SlowItem | lib/analytics-service.ts:422-426 | a slow item copies the name, takes the stock with null as 0, and the days without sales |
| AnalyticsService.SlowCandidates | lib/analytics-service.ts:413-427 | every product without a recent sale has its item among the candidates, and there are no more candidates than products |
| AnalyticsService.SlowCandidatesSource | lib/analytics-service.ts:413-427 | every candidate is the item of a product with no recent sale |
| AnalyticsService.SlowMovingSpec | lib/analytics-service.ts:376-439 | a failed query gives `[]`; the result has at most 5 items, sorted by days without sales non-increasing, each from a product without a recent sale; a product left out means five items with at least as many days |
| ProductForm.ErrorOr | app/inventory/AddProductModal.tsx:86-89 | the error shown is the result's (or exception's) message when present and non-empty, otherwise the fallback text (also lines 94-96) |
| ProductForm.CheckMatchesGate | app/inventory/AddProductModal.tsx:71 | the submit test "NaN or negative" is exactly the negation of the input gate's "at least zero" (also lines 152) |
| ProductForm.CategoryFallback | app/inventory/AddProductModal.tsx:31-35 | the category id is empty exactly when the form's category is empty and there is no first category with a non-empty id; the default-category effect fills in that same id (also lines 61) |
| ProductForm.ValidateOutcome | app/inventory/AddProductModal.tsx:58-84 | a blank name gives "Product name is required."; else an empty category id "Please select a category."; else a NaN or negative number "Please enter valid non-negative numbers."; else the request carries the trimmed (non-empty) name, the category id and the parsed numbers |
| ProductForm.WithFieldFrame | app/inventory/AddProductModal.tsx:37-42 | `handleChange` sets the named field to the value and leaves every other field as it was |
| ProductForm.ChangedKeepsGates | app/inventory/AddProductModal.tsx:150-155 | name and category changes always go through; a numeric change goes through exactly when the text is empty or parses to at least zero; every numeric field keeps holding text the gate accepts (also lines 168-173, 189-194) |
| ProductForm.BlankFormGates | app/inventory/AddProductModal.tsx:44-52 | the reset form satisfies the numeric gates and its category is the first category's id or empty |
| ProductForm.FilledFormAccepted | app/inventory/AddProductModal.tsx:58-84 | a form built through the gates, with a name, a category and all three numbers filled in, passes validation (also lines 150-194) |
| ProductForm.GatesAndNumberCheck | app/inventory/AddProductModal.tsx:71-74 | when parsing `""` gives NaN, the number check fails exactly because some numeric field is still empty (also lines 150-194) |
| AddProductModal.AddProductModal.constructor | app/inventory/AddProductModal.tsx:21-29 | the form starts with all fields empty, not submitting and no error |
| AddProductModal.AddProductModal.SyncCategory | app/inventory/AddProductModal.tsx:31-35 | an empty category takes the first category's id; nothing else changes |
| AddProductModal.AddProductModal.Change | app/inventory/AddProductModal.tsx:37-42 | an input change updates the form through its gate; the error and the submitting flag are untouched (also lines 150-155, 168-173, 189-194) |
| AddProductModal.AddProductModal.ResetForm | app/inventory/AddProductModal.tsx:44-52 | the form becomes blank with the first category's id or `""` |
| AddProductModal.AddProductModal.Submit | app/inventory/AddProductModal.tsx:54-100 | a rejected form sets that message and sends nothing; an accepted one sends the checked draft; success closes with the form reset; failure shows the result's error or "Failed to add product." and keeps the form |
| EditProductModal.IntText | app/inventory/EditProductModal.tsx:30-31 | a missing number shows as `""`, a present one as its decimal text (also lines 42-43) |
| EditProductModal.InitialForm | app/inventory/EditProductModal.tsx:27-33 | without a product every field starts empty; with one the form starts from its fields |
| EditProductModal.FormOfProduct | app/inventory/EditProductModal.tsx:37-47 | the repopulated form carries the product's name and category, the decimal text of its stock and reorder level (`""` exactly when missing) and its price text |
| EditProductModal.UnchangedProductAccepted | app/inventory/EditProductModal.tsx:37-47 | submitting an unedited valid product sends back its trimmed name, its category and its parsed numbers (also lines 62-93) |
| EditProductModal.EditProductModal.constructor | app/inventory/EditProductModal.tsx:27-35 | the form starts from the product, not submitting and with no error |
| EditProductModal.EditProductModal.SetProduct | app/inventory/EditProductModal.tsx:37-47 | a new product repopulates the form from its fields; no product leaves the form alone |
| EditProductModal.EditProductModal.SyncCategory | app/inventory/EditProductModal.tsx:49-53 | an empty category takes the first category's id; nothing else changes |
| EditProductModal.EditProductModal.Change | app/inventory/EditProductModal.tsx:55-60 | an input change updates the form through its gate and keeps the gates holding (also lines 158-163, 176-181, 197-202) |
| EditProductModal.EditProductModal.Submit | app/inventory/EditProductModal.tsx:62-108 | no product is a no-op; a rejected form sets the message; an accepted one sends the product id with the checked draft; failure shows the result's error or "Failed to update product."; the form is never changed |
| InventoryTable.Status | app/inventory/InventoryTable.tsx:22-27 | out exactly when the stock (null as 0) is at most 0, whatever the reorder level; low exactly when 0 < stock < reorder (null as 0); in exactly when stock > 0 and stock >= reorder |
| InventoryTable.StatusExclusive | app/inventory/InventoryTable.tsx:22-27 | the three stock conditions cover every product and no two hold at once |
| InventoryTable.KeepAgreesWithStatus | app/inventory/InventoryTable.tsx:66-80 | the filter's own stock comparisons keep a matching product exactly when its status is the one the chip selects; "all" keeps every matching product |
| InventoryTable.QueryMatching | app/inventory/InventoryTable.tsx:65-67 | a blank query matches every product; otherwise a product matches exactly when the trimmed, lower-cased query occurs in its lower-cased name |
| InventoryTable.FilteredContents | app/inventory/InventoryTable.tsx:64-81 | the filtered list keeps input order and holds exactly the products the callback keeps |
| InventoryTable.FilteredAllBlank | app/inventory/InventoryTable.tsx:64-81 | with "all" and a blank query every product is listed |
| InventoryTable.IsUrlPrefixes | app/inventory/InventoryTable.tsx:32 | an icon is a URL exactly when it starts with `http://`, `https://` or `/` |
| MainPos.SampleProducts | app/mainpos/ClientMainPos.tsx:21-25 | there are twelve sample products; product i+1 carries name and price number i mod 4 |
| MainPos.UniqueByNameDistinct | app/mainpos/ClientMainPos.tsx:28-30 | the catalogue built through the name-keyed `Map` has at most one entry per name |
| MainPos.UniqueByNameCovers | app/mainpos/ClientMainPos.tsx:28-30 | every product's name has an entry in the catalogue |
| MainPos.UniqueByNameKeepsLast | app/mainpos/ClientMainPos.tsx:28-30 | each catalogue entry is the LAST product carrying its name (`Map.set` overwrites the value) |
| MainPos.InventoryByNameCounts | app/mainpos/ClientMainPos.tsx:33-41 | the per-name fold has a key exactly for the names that occur and maps each to the number of products with that name |
| MainPos.SampleCounts | app/mainpos/ClientMainPos.tsx:21-41 | each of the four sample names is counted three times |
| MainPos.FindProduct | app/mainpos/ClientMainPos.tsx:70 | the lookup finds a catalogue product with the id, and finds none exactly when no product has the id |
| MainPos.CatalogueEntries | app/mainpos/ClientMainPos.tsx:21-30 | every catalogue entry is one of sample products 9..12 |
| MainPos.CatalogueHas | app/mainpos/ClientMainPos.tsx:21-30 | each of sample products 9..12 is in the catalogue |
| MainPos.SampleStock | app/mainpos/ClientMainPos.tsx:69-71 | the cap used by `addToCart` is 3 for ids 9..12 and unbounded (`Infinity`) for every other id |
| MainPos.VisibleProductsContents | app/mainpos/ClientMainPos.tsx:99-106 | the products shown keep catalogue order and are exactly those whose lower-cased name contains the lower-cased query and whose category is selected or "All items" |
| MainPos.VisibleProductsAll | app/mainpos/ClientMainPos.tsx:99-106 | an empty query with "All items" shows the whole catalogue |
| MainPos.FindLine | app/mainpos/ClientMainPos.tsx:72 | the cart lookup returns the FIRST line with the id, and none exactly when no line has the id |
| MainPos.QtyIn | app/mainpos/ClientMainPos.tsx:95-97 | the quantity is 0 when no line has the id, and otherwise is the quantity of the first line with that id |
| MainPos.Bump | app/mainpos/ClientMainPos.tsx:77 | the mapped cart has the same length, changes the quantity of the id's lines by the delta and leaves every other line as it was |
| MainPos.AddSpec | app/mainpos/ClientMainPos.tsx:74-79 | adding raises the id's quantity by one and no other id's; an existing line keeps the cart length, a new id is appended as a line of one |
| MainPos.AddKeepsInvariant | app/mainpos/ClientMainPos.tsx:69-80 | an add allowed by the cap keeps ids unique, every quantity at least 1 and at most its cap |
| MainPos.RemoveOneKeepsInvariant | app/mainpos/ClientMainPos.tsx:82-89 | removing one unit keeps the cart invariant |
| MainPos.RemoveAllKeepsInvariant | app/mainpos/ClientMainPos.tsx:91-93 | removing all of an id keeps the cart invariant and leaves no line for the id |
| MainPos.AddRemoveRoundTrip | app/mainpos/ClientMainPos.tsx:74-89 | adding one unit of an id and then removing one unit restores the original cart |
| MainPos.RemoveAllSpec | app/mainpos/ClientMainPos.tsx:91-93 | removing all of an id zeroes its quantity, keeps every other id's quantity, and keeps the remaining lines in order |
| MainPos.TotalAppend | app/mainpos/ClientMainPos.tsx:108-113 | the total of two carts joined is the sum of their totals |
| MainPos.TotalBump | app/mainpos/ClientMainPos.tsx:108-113 | changing the quantity of an id present in a cart with unique ids changes the total by the price times the change |
| MainPos.TotalAfterAdd | app/mainpos/ClientMainPos.tsx:74-79 | adding one unit of an id raises the total by that product's price (also lines 108-113) |
| MainPos.Cart.constructor | app/mainpos/ClientMainPos.tsx:66 | the cart starts empty and satisfies the invariant |
| MainPos.Cart.AddToCart | app/mainpos/ClientMainPos.tsx:69-80 | the cart is unchanged when its quantity of the id is at the cap, and otherwise becomes the added cart; the invariant is kept |
| MainPos.Cart.RemoveFromCart | app/mainpos/ClientMainPos.tsx:82-89 | an absent id changes nothing, a line of one is dropped, otherwise its quantity drops by one; the invariant is kept |
| MainPos.Cart.RemoveAllFromCart | app/mainpos/ClientMainPos.tsx:91-93 | the id's line is removed and the others keep their order; the invariant is kept |
| RouteGuard.PrefixesAgree | utils/supabase/middleware.ts:63-75 | two prefixes of the same path agree at every position both have |
| RouteGuard.RouteKinds | utils/supabase/middleware.ts:63-75 | a path is public exactly when it is `/` or starts with `/signup` or `/auth/`, and protected exactly when it starts with one of the six listed prefixes |
| RouteGuard.PublicNotProtected | utils/supabase/middleware.ts:63-75 | no path is both public and protected |
| RouteGuard.GuardDecision | utils/supabase/middleware.ts:77-92 | a signed-out request to a protected path goes to `/` with `redirected=true`; a signed-in request to exactly `/` goes to `/mainpos`; every other request passes through, public paths included |
| RouteGuard.NoRedirectLoop | utils/supabase/middleware.ts:77-92 | following either redirect, with the same session, passes through |
| AnalyticsPage.GrowthMeaning | app/analytics/page.tsx:49-56 | with no previous value the percentage is 0 and growth is positive iff the current value is at least 0; otherwise percentage times previous is (current - previous) times 100 and the sign follows the change; equal values give 0 and positive |
| AnalyticsPage.GrowthsOfMetrics | app/analytics/page.tsx:157-179 | without metrics every figure is 0 and not positive; with metrics each figure is the growth of its current and previous metric, and a previous count of 0 gives 0 and positive |
| AnalyticsPage.LabelMatchesWord | app/analytics/page.tsx:58-66 | "Today", "This Week", "This Month", "This Year" name the periods; the comparison word is day, week, month, year; different periods get different labels and words (also lines 220-227) |
| AnalyticsPage.TrendMeaning | app/analytics/page.tsx:331-348 | the chart trends up exactly when the last revenue is above the first (first at least 0), or below it (first negative) |
| SignupRoute.ValidationFirst | app/api/signup/route.ts:10-23 | a missing field (absent read as `""`) gives 400 "All fields are required"; with every field, a password under 8 characters gives 400; the auth service is called exactly when both checks pass |
| SignupRoute.CallArguments | app/api/signup/route.ts:14-37 | the sign-up call carries the email, the password, the trimmed "first last" and the store name and phone, `""` when missing |
| SignupRoute.AuthOutcome | app/api/signup/route.ts:39-54 | an auth error containing "already registered" in any case gives 409; any other gives 400 with its message or "Signup failed"; success gives 200; an exception gives 500 |
| SignupRoute.ResponseShape | app/api/signup/route.ts:5-59 | success holds exactly with status 200 and a successful auth call; the status is always 200, 400, 409 or 500; seeding runs only for a returned user id, and its failure never changes the response |
| AuthAction.LoginNeedsBothFields | lib/auth-action.ts:14-20 | an empty email or password gives "Email and password are required", whatever sign-in and profile lookup would answer |
| AuthAction.SignInErrors | lib/auth-action.ts:28-40 | a sign-in error maps to the confirm-email message exactly when it mentions "Email not confirmed" and not "Invalid login credentials"; every other error is "Wrong email or password" |
| AuthAction.LoginProfileCheck | lib/auth-action.ts:46-72 | after a successful sign-in the user is signed out again exactly when the profile row says `is_active = false`, and the deactivation message is returned exactly when that sign-out does not throw; in every other case (no row, null flag, lookup error, thrown lookup or thrown sign-out) the login succeeds |
| AuthAction.LoginSuccessNeedsUser | lib/auth-action.ts:11-73 | success needs both fields, a sign-in without error and a user; a sign-out comes with the deactivation message, or with success when the sign-out throws; login never redirects |
| AuthAction.SignupChecks | lib/auth-action.ts:89-111 | missing fields give "All fields are required" first, then a short password its message; a form that reaches the auth service sends full name "first last" and `""` for a missing store name or phone |
| AuthAction.SignupOutcome | lib/auth-action.ts:113-137 | an error containing "already registered" (case-sensitive) asks to log in instead; an empty identities list gives the same message with type `email_exists`; a user with identities redirects to `/mainpos` |
| AuthAction.Signout | lib/auth-action.ts:144-156 | sign-out succeeds exactly when the auth service reports no error, and otherwise fails with the sign-out message |
| PaymentWidget.Backspaced | app/payment/PaymentWidget.tsx:25-27 | backspace drops exactly the last character and leaves `""` as `""` |
| PaymentWidget.Shown | app/payment/PaymentWidget.tsx:30 | the amount in the completion message is never empty and is the amount itself when one was entered |
| PaymentWidget.DotEntry | app/payment/PaymentWidget.tsx:13-16 | `.` is ignored when the amount has one and appended otherwise, so the `"0."` fallback is never taken |
| PaymentWidget.DigitEntry | app/payment/PaymentWidget.tsx:18 | a key replaces an amount of exactly `"0"` and is appended to any other amount |
| PaymentWidget.EntryKeepsShape | app/payment/PaymentWidget.tsx:11-19 | entering any key keeps at most one `.` and no `0` in front of another digit |
| PaymentWidget.BackspaceKeepsShape | app/payment/PaymentWidget.tsx:25-27 | backspace keeps at most one `.` and no leading zero before a digit |
| PaymentWidget.BackspaceUndoesEntry | app/payment/PaymentWidget.tsx:11-27 | backspace undoes an accepted `.` and any key entered on an amount other than `"0"` |
| PaymentWidget.KeypadAmount | app/payment/PaymentWidget.tsx:87-103 | any sequence of keypad presses from the empty amount yields digits only, with no leading zero before a digit |
| PaymentWidget.PaymentWidget.constructor | app/payment/PaymentWidget.tsx:7-8 | the amount starts empty and the mode as Cash |
| PaymentWidget.PaymentWidget.AddDigit | app/payment/PaymentWidget.tsx:11-19 | the amount becomes the entered amount, keeps its shape, and the mode is unchanged |
| PaymentWidget.PaymentWidget.Clear | app/payment/PaymentWidget.tsx:21-23 | the amount becomes `""` and the mode is unchanged |
| PaymentWidget.PaymentWidget.Backspace | app/payment/PaymentWidget.tsx:25-27 | the amount loses its last character and the mode is unchanged |
| PaymentWidget.PaymentWidget.SelectMode | app/payment/PaymentWidget.tsx:71-82 | a mode button sets the mode, Cash or GCash, and leaves the amount alone |
| PaymentWidget.PaymentWidget.Press | app/payment/PaymentWidget.tsx:93-97 | a keypad button dispatches to clear, backspace or entry and keeps the amount's shape |
| PaymentWidget.PaymentWidget.Complete | app/payment/PaymentWidget.tsx:29-33 | completing shows "Payment completed: " with the amount or "0.00", and goes to `/mainpos` |
| PosService.CashierName | lib/pos-service.ts:150-157 | the cashier name is never empty: the profile's full name when present and non-empty, otherwise "Unknown" |
| PosService.ReceiptNumberShape | lib/pos-service.ts:159-160 | the receipt number is `RCP-`, then the decimal digits of the clock reading, then `-` and the random suffix |
| PosService.FloorDecrementBounds | lib/pos-service.ts:224 | the fallback stock value `max(0, stock - qty)` is never negative, equals `stock - qty` when the stock covers the quantity and 0 otherwise |
| PosService.StockAfterLineFrame | lib/pos-service.ts:203-234 | one line's stock update changes no product but the line's own and adds or drops no product |
| PosService.FallbackWrite | lib/pos-service.ts:212-229 | when the stock procedure is missing and the read and write succeed, the stored stock is the floored decrement, never negative |
| PosService.RunLinesAllSaved | lib/pos-service.ts:185-235 | the per-line loop runs to the end exactly when every line-item insert answers without error and no stock update is rejected, and then appends one row per cart line and applies every line's stock update |
| PosService.RunLinesStopped | lib/pos-service.ts:185-235 | when the loop stops at line i, i is the first line that does not complete; the stop is a throw unless the insert answered with an error; rows and stock updates of lines before i stay, line i's row stays exactly when its insert went through, and nothing of later lines is written |
| PosService.StockAfterLinesFrame | lib/pos-service.ts:185-235 | a product that no cart line names keeps its stock |
| PosService.CheckoutWithoutUser | lib/pos-service.ts:142-148 | when the auth check answers with no user the checkout fails with "User not authenticated" and the tables are unchanged |
| PosService.CheckoutTransactionInsertFails | lib/pos-service.ts:162-182 | a transaction insert answering with an error fails with "Failed to create transaction" and writes no line item and no stock |
| PosService.CheckoutRejectedBeforeLoop | lib/pos-service.ts:242-245 | a rejected auth check, profile lookup or transaction insert, reached before any error answer, ends in the `catch` with "An unexpected error occurred" and writes nothing (the calls are at lines 140-182) |
| PosService.CheckoutSucceedsIff | lib/pos-service.ts:140-245 | the checkout completes exactly when the auth check, profile lookup and transaction insert answer with a user and a transaction, every line-item insert answers without error and no stock update is rejected; an error answer from the stock procedure or its fallback never decides the outcome |
| PosService.CheckoutCompleted | lib/pos-service.ts:157-241 | a completed checkout adds exactly one "completed" transaction with the caller's amounts, payment method and cashier name, one line item per cart line in cart order copying id, name, quantity, unit price and subtotal, and applies every line's stock update |
| PosService.CheckoutStopsInLoop | lib/pos-service.ts:185-245 | a checkout that reaches the loop and does not complete stops at the first line i that does not complete, returns "Failed to save transaction items" for an insert error and "An unexpected error occurred" for a rejected call, and keeps the transaction row, the items and stock updates of lines 0..i-1, and line i's row when only its stock update was rejected |
| PosService.RunLinesStopPrefix | lib/pos-service.ts:185-235 | once the lines before i ran and line i does not complete, the loop ends with line i's step on the tables of that prefix |
| PosService.Store.constructor | lib/pos-service.ts:131-138 | a fresh store holds no transactions, no items and the given stock |
| PosService.Store.CreateTransaction | lib/pos-service.ts:131-246 | the imperative checkout (early returns, one insert, the per-line loop, and the `catch` for a rejected call) leaves the store in exactly the state and returns exactly the result of the checkout specification |
| PosService.Store.SaveLine | lib/pos-service.ts:186-234 | one loop pass appends the line-item row and applies the line's stock update (procedure result, fallback floored write, or nothing when it errs or is rejected) |
| PosService.Store.UpdateProductStock | lib/pos-service.ts:251-285 | a rejected read or write gives "An unexpected error occurred" and no write; a read error or missing product gives "Product not found"; a write error gives "Failed to update stock"; otherwise the floored decrement is written and returned; the other tables are unchanged |
| PosService.CategoryName | lib/pos-service.ts:70 | the category name is never empty: the joined name when present and non-empty, otherwise "Uncategorized" |
| PosService.FetchProducts | lib/pos-service.ts:56-75 | a query error gives `[]`; otherwise one product per row, in order, copying all eight row fields and adding the category name with its "Uncategorized" fallback |
| SettingsPage.FontSizes | app/settings/page.tsx:30-40 | "Small", "Medium (Recommended)" and "Large" set 14, 16 and 18 pixels; any other text leaves the root font size unchanged; applying twice is applying once |
| SettingsPage.StoreFieldFrame | app/settings/page.tsx:42-44 | changing one store field sets it to the value and leaves the other three as they were |
| SettingsPage.ToggleFlips | app/settings/page.tsx:46-51 | a toggle flips the named preference only, and toggling twice restores it |
| SettingsPage.AppliedSizeSurvivesReload | app/settings/page.tsx:21-28 | after Apply saves one of the three sizes, the next mount shows that size and sets the same root font size Apply set (also lines 58-67) |
| SettingsPage.SettingsPage.constructor | app/settings/page.tsx:7-19 | the page starts with the default store information, sound alerts on, utang off and the medium size |
| SettingsPage.SettingsPage.Mount | app/settings/page.tsx:21-28 | a non-empty saved size becomes the current size and is applied; with none, nothing changes |
| SettingsPage.SettingsPage.ApplyFontSize | app/settings/page.tsx:30-40 | only the root font size changes, to the size's pixels or not at all |
| SettingsPage.SettingsPage.HandleInputChange | app/settings/page.tsx:42-44 | only the named store field changes |
| SettingsPage.SettingsPage.HandleToggle | app/settings/page.tsx:46-51 | only the named preference flips |
| SettingsPage.SettingsPage.Cancel | app/settings/page.tsx:132-141 | the store information returns to its four default values and nothing else changes |
| SettingsPage.SettingsPage.SelectDisplaySize | app/settings/page.tsx:205-208 | the select sets the display size and nothing else |
| SettingsPage.SettingsPage.ApplySettings | app/settings/page.tsx:58-67 | the current size is applied to the root and saved under `displaySize`; nothing else changes |
| ThemeToggle.ToggleInvolution | app/components/ThemeToggle.tsx:36 | a click always gives light or dark, switches between them, and a second click restores the theme |
| ThemeToggle.InitialThemeMeaning | app/components/ThemeToggle.tsx:10-13 | with nothing saved the theme starts light; a non-empty saved value is used as is |
| ThemeToggle.OneThemeClass | app/components/ThemeToggle.tsx:19-28 | after the effect exactly one of `theme-light` and `theme-dark` is on the root: light on `/payment` paths, the theme's elsewhere; other classes stay |
| ThemeToggle.PersistenceRule | app/components/ThemeToggle.tsx:19-28 | on `/payment` paths nothing is saved; elsewhere the theme is saved under `theme` and is what the next load starts from |
| ThemeToggle.ThemeToggle.constructor | app/components/ThemeToggle.tsx:7 | the theme starts light |
| ThemeToggle.ThemeToggle.LoadSaved | app/components/ThemeToggle.tsx:9-16 | the saved theme, or light, becomes the theme and its class replaces the theme classes |
| ThemeToggle.ThemeToggle.ApplyTheme | app/components/ThemeToggle.tsx:19-28 | the root class and the storage become those the persistence rule describes; theme and path are unchanged |
| ThemeToggle.ThemeToggle.Toggle | app/components/ThemeToggle.tsx:32-36 | on a path where the button is shown, a click flips the theme and changes nothing else |
| ThemeToggle.ThemeToggle.Navigate | app/components/ThemeToggle.tsx:6 | a new path changes only the path |
| TransactionHistory.SampleTransactions | app/transactionhistory/page.tsx:15-58 | the six sample rows all carry valid local dates |
| TransactionHistory.DiffToMondayBounds | app/transactionhistory/page.tsx:82-83 | `diffToMonday` lies in -6..0 and moves the weekday to Monday |
| TransactionHistory.DateFilterMeaning | app/transactionhistory/page.tsx:67-104 | "today" holds exactly on now's date; "month" exactly in now's year and month; "year" exactly in now's year; "all" and any unknown filter accept every date |
| TransactionHistory.WeekWindow | app/transactionhistory/page.tsx:80-91 | "week" holds exactly from this week's Monday at midnight up to, not including, the Monday seven days later |
| TransactionHistory.WeekHoldsNow | app/transactionhistory/page.tsx:80-91 | the current instant is always inside the week window |
| TransactionHistory.SearchMatching | app/transactionhistory/page.tsx:112-118 | a blank search matches every row; otherwise a row matches exactly when the trimmed, lower-cased search occurs in its lower-cased id or payment |
| TransactionHistory.PaymentMatching | app/transactionhistory/page.tsx:120-121 | "all" accepts every row, "cash" and "gcash" exactly the rows of that payment, any other value none |
| TransactionHistory.FilteredContents | app/transactionhistory/page.tsx:111-127 | the result keeps row order and holds exactly the rows that pass search, payment and date |
| TransactionHistory.FilteredAllShown | app/transactionhistory/page.tsx:111-127 | a blank search with "all" payments and "all" dates shows every row |

## Left out

- The hosted database and authentication clients are not modelled: each answer they give (rows, errors, the signed-in user, the inserted ids) is an input.
- The body of the `decrement_product_stock` stored procedure is not visible: when the call succeeds, the stock it leaves is an input.
- Realtime subscription channels and the refresh they trigger are left out: they only re-run the fetches that are modelled.
- Concurrency is left out: `Promise.all` and interleaved requests are modelled as a sequence of results.
- JavaScript `Date`, time zones and ISO string output are left out: an instant is a date (year, month, day) with the milliseconds since its midnight. No weekday is computed from a date: the weekday of "now" and, for the week chart, each row's weekday (`date.getDay()`) are inputs, not tied to the row's date.
- The internals of `parseInt` and `parseFloat` are left out: they are function parameters returning a number or NaN.
- Converting a price to text for the edit form is a function parameter: floating-point `toString` is not modelled.
- `toFixed`, `Intl` and locale number and date formatting are left out: they only affect display.
- `Math.random` for the receipt number suffix is an input.
- Rendering (JSX, CSS classes other than the theme and font-size classes), `alert` and `console` logging are left out.
- The browser's own `required` field validation and the timing of the asynchronous `submitting` flag are left out.
- Cookie plumbing of the server-side auth client is left out: the session is an input to the route guard.
- The `Extended_Pictographic` regular expression that recognises an emoji icon is not modelled (the model has no Unicode properties); the URL test of an icon is.
- `getUserProfile`, `signInWithGoogle` and `fetchCategories` are thin pass-through wrappers over the database and are not modelled.
- `createInventoryProduct` and `updateInventoryProduct`, which the product forms import, are not defined in lib/pos-service.ts as it stands; their implementation is not part of this model and their outcome is an input.
- A query result of `data: null` without an error is treated as an empty list.
- A profile lookup error (code 42703 or another) only chooses which warning is logged; the model ignores it, as the login outcome does.
- Password length is counted in characters of the model's strings, not in UTF-16 code units.
- A null `category_id` is read as the empty string in the forms.
- Slow-moving products: one clock reading is used for every row, where the source reads the clock once per row.
- The revenue chart's points come out in first-seen order of their keys; JavaScript's `Object.entries` lists integer-like keys (hours, days) in ascending numeric order first, which the model does not reproduce.
- AnalyticsService.GroupByProduct: lists the groups in first-seen order of their names, where `Object.values` lists integer-like product names (such as "100") first, in ascending numeric order. It also gives a group to every name, where the source's plain object literal already has the inherited `Object.prototype` members ("constructor", "toString", "valueOf", "hasOwnProperty", "__proto__", ...): for such a name `!grouped[key]` is false, no group is created, the `+=` writes NaN onto the inherited member, and `Object.values` never lists it.
- AnalyticsService.TopSellingProducts: sorts the groups from their first-seen order, so among groups tied on units sold, which ones survive `.slice(0, 5)` and in what order can differ from the source when some product names are integer-like; and its completeness clause (every name sold is listed or outranked by five) does not hold in the source for a name that is an inherited `Object.prototype` member such as "constructor", which the source never lists.
- InventoryTable.QueryMatching: lower-cases only the ASCII letters `A` to `Z`, where `toLowerCase` folds every Unicode letter; a query matches a name that differs from it only in the case of a non-ASCII letter in the source but not in the model.
- MainPos.VisibleProductsContents: the same ASCII-only lower-casing of the name and the query.
- TransactionHistory.SearchMatching: the same ASCII-only lower-casing of the search, the id and the payment method.
- Other case-insensitive comparisons (the "already registered" check of the sign-up route) use the same ASCII-only lower-casing; their needles are ASCII, so only haystacks with non-ASCII capitals that fold to ASCII could differ.
- A rejected call is taken to have written nothing: a stock procedure or fallback write that is rejected after the database applied it is not modelled.
- MainPos.Cart.AddToCart: requires a sample product id (1 to 12), because the source's total looks a cart line's price up with a non-null assertion and is undefined for other ids.
- PaymentWidget.PaymentWidget.AddDigit: takes one character per key, where the source accepts any string; every key of the keypad is one character.

## Findings

| source | as written | input that shows it | evidently intended | confidence | as-written member | corrected member |
|---|---|---|---|---|---|---|
| lib/analytics-service.ts:53-54 | the "week" window starts `daysToMonday + 6` days before today, which is always a Tuesday 6 to 12 days back | Wednesday 15 January 2025: the window starts on Tuesday 7 January | start on the Monday of the current week (`daysToMonday` days back) | not executed | AnalyticsService.WeekStartIsTuesday | AnalyticsService.IntendedWeekStartsMonday |
| lib/analytics-service.ts:69-72 | for the previous period (offset 1) the window still ends at the end of today, so it contains the whole current window | any period and any sale made today: it counts in both windows, and the revenue growth can never be positive | the previous window ends on the day before the current window starts | not executed | AnalyticsService.PreviousRangeCoversCurrent | AnalyticsService.IntendedRangesAdjacent |
