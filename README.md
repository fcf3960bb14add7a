# Chazon marketplace: a Dafny model of its booking, payment and catalog logic

Chazon is a services marketplace. Clients browse a catalog of services offered by stewards and book one through a three-step form. They pay for the booking through a hosted payment gateway. This project models the deterministic logic inside its route handlers, client stores and page helpers, and proves properties of that model:

- **Booking and payment routes.** `/api/bookings` lists the caller's tasks as bookings and creates a task from a service offering. `/api/payments/initiate` records a pending charge and asks the gateway for a payment link. `/api/payments/verify` settles the charge after the gateway's redirect back.
- **Client stores.** The auth store and its session sync, the in-memory bookings store, the booking wizard, the sign-up form, the price filter chips and the image fallback.
- **Validators.** The steward application, the mock sign-in and the sign-up password checks.
- **Catalog selection.** `/api/services`, the services page, the search page, the home page's per-category counts, the dashboard's status badge and the service card's query highlighting.

The database is a class `Db.Database`, with one map per table keyed by row id. Listings read the catalog as a sequence of `Catalog.Service` rows. Outside systems become inputs:

- The session is an `Option` of the caller's user id.
- The payment gateway is a function from the request sent to the reply received.
- `new Date(...)` is a function from the input string to an optional instant.
- Ids and instants the database assigns are parameters.
- A database call that throws is a `dbFails` flag; the handler's catch-all answer is then the error response.

Client state that the source updates in place becomes classes with `modifies` frames: `Auth.AuthStore`, `BookingsStore.Store`, `BookingSteps.Wizard`, `SignUp.SignUpForm`, `FilterChips.SearchParams` and `ImageWithFallback.Image`.

Prices are exact `real`s. JavaScript's `toLowerCase`, the regular expression flag `i` and Prisma's `mode: 'insensitive'` are all modelled as the ASCII lower-casing `Common.Lower`.

The model follows the code on four points that a reader might expect otherwise:

- The verify callback's update is not conditioned on the transaction being `PENDING`. A second successful callback overwrites a completed row (`Payments.CompletedRowIsOverwritten`).
- Nothing prevents a second open charge for a task (`Payments.RepeatedInitiateAddsCharge`).
- Settling a payment does not change the task's state.
- No path marks a transaction `FAILED`.

## Model

| member | source | states |
|---|---|---|
| Ordering.SortedSelection | app/api/services/route.ts:10-41 | a `findMany` with a `where` predicate and an `orderBy` column gives a result ordered by that column that holds exactly the table rows satisfying the predicate |
| Catalog.EmptyTextMatches | app/search/page.tsx:12-16 | the empty query satisfies the case-insensitive OR of title, description and category name for every service |
| ServicesApi.Get | app/api/services/route.ts:4-48 | a query failure gives the 500 response and only a failure does; every listed service is an active table row, in the given category when one is given, matching the text query when one is given; every such row is listed as often as it occurs in the table; the list is newest first |
| ServicesApi.NoParametersListsAllActive | app/api/services/route.ts:13-24 | absent or empty `category` and `q` impose no condition: every active service is listed |
| ServicesPage.SplitOn | app/services/page.tsx:10 | `split(':')` gives at least one piece, no piece holds the separator, and joining the pieces with it gives back the input |
| ServicesPage.ParseSortBy | app/services/page.tsx:10 | without `sortBy` the field and direction are `createdAt` and `desc`; with it, the field is all the text before the first ':', or the whole text when there is none; the direction is present exactly when there is a ':' and is all the text after it up to a second ':' or the end |
| ServicesPage.ResolveOrder | app/services/page.tsx:31-33 | the parsed pair orders the result exactly when the field is one of the orderable columns (`createdAt`, `price`, `duration`, `isActive`, `id`, `title`, `description`) and the direction is `asc` or `desc`, by that column's value and in that direction, text columns by the database's collation; a missing direction leaves the result unordered; any other direction or column makes the query fail |
| ServicesPage.GetServices | app/services/page.tsx:8-41 | a failing query or a rejected order gives the empty list; every result is an active table row in the given category and within the price cap; when the query succeeds every such row appears as often as in the table; an accepted order sorts the result by its column and direction |
| ServicesPage.DefaultOrderIsNewestFirst | app/services/page.tsx:10-33 | without `sortBy` the services come newest first |
| ServicesPage.GetCategories | app/services/page.tsx:51-58 | the active categories, or none when the query fails |
| ServicesPage.CurrentCategory | app/services/page.tsx:69 | a found category has the filter's slug and is the first one with it; no category is found only when there is no filter or no category has that slug |
| SearchPage.NormaliseQuery | app/search/page.tsx:50 | an absent `q` becomes "", a single `q` is itself, a repeated `q` is its first value |
| SearchPage.SearchServices | app/search/page.tsx:6-39 | a failing query gives no results; every result is an active table row containing the query in its title, description or category name, ignoring case; when the query succeeds every such row appears as often as in the table; the results are newest first |
| SearchPage.EmptyQueryFindsAllActive | app/search/page.tsx:9-16 | an absent or empty `q` finds every active service |
| SearchPage.ResultsMessage | app/search/page.tsx:63-65 | the "Found" message appears exactly when there are results, with their number, and both messages repeat the query |
| HomePage.HomeCategories | app/page.tsx:17-38 | a failed fetch gives no categories; otherwise one entry per fetched category in the same order with its id, name, slug and description, no icon, and as count the number of fetched services whose category id is the category's, counted one service at a time (`Belonging`); the count is at most the number of services and is positive when a service belongs to the category |
| HomePage.WithCount | app/page.tsx:31-38 | a category's entry counts the fetched services of that category, one per position |
| HomePage.ServiceCountIsBelonging | app/page.tsx:37 | the length of the filtered list is the number of services whose category id is the category's |
| HomePage.CountIsZeroIffNoService | app/page.tsx:37 | a category's count is zero exactly when no fetched service has its id |
| HomePage.TotalOfCons | app/page.tsx:37 | one more service adds, to the sum of the counts, one for every listed category carrying its category id |
| HomePage.CountsBounded | app/page.tsx:31-38 | with distinct category ids the counts add up to at most the number of services |
| HomePage.UnlistedCategoryCountsNothing | app/page.tsx:37 | a service whose category id matches no listed category changes no entry |
| BookingsApi.MapStatus | app/api/bookings/route.ts:35-44 | ASSIGNED, IN_PROGRESS, DONE and CANCELLED map to CONFIRMED, IN_PROGRESS, COMPLETED and CANCELLED, each exactly from that string; OPEN and every other string map to PENDING |
| BookingsApi.MapStatusOfTaskStates | app/api/bookings/route.ts:35-44 | each of the five stored task states maps to its own booking state, and different task states map to different booking states |
| BookingsApi.BookingViewOfTask | app/api/bookings/route.ts:6-33 | the booking returned for a task carries its id, the mapped state (PENDING for an OPEN task), its price and currency, the category as name with the lower-cased category as id and slug, and at most one image |
| BookingsApi.ToBookings | app/api/bookings/route.ts:65 | one booking per task, in order, each the mapping of that task with its steward |
| BookingsApi.GetBookings | app/api/bookings/route.ts:46-80 | no session gives 401 and no rows; a failing query gives 500 and no rows; otherwise every task of the caller appears exactly once and no other task does, newest first, returned as bookings with page 1 and the number of rows as total; the table is not changed |
| BookingsApi.PostBooking | app/api/bookings/route.ts:82-148 | the guards in order: no session 401, a body that is not JSON 500, a missing `serviceId` or `scheduledDate` 400, a failing database call 500, an unknown offering 404, an invalid date 500; a request past every guard is created, and only a created response adds a row, exactly one, under the fresh id: an OPEN task for the caller that copies the offering's steward, price, currency, category and pricing type, with the notes or else the offering's title, the address and the parsed date; the response is that task as a booking; no other table changes |
| Payments.PlatformFee | app/api/payments/initiate/route.ts:38 | the fee is a tenth of the amount, and for a nonnegative amount lies between zero and the amount |
| Payments.Initiate | app/api/payments/initiate/route.ts:6-72 | the guards in order: no session 401, a body that is not JSON 500, no task id 400, a failing database call 500, an unknown task 404, a caller not the task's client 403, and none of them stores anything or calls the gateway; a request past every guard reaches the gateway, and exactly one transaction is added under the fresh id, a PENDING CHARGE of the task's price and currency with a tenth as fee, before the gateway is asked to charge that id and amount with the verify redirect; a "success" reply gives the link, any other reply 500, an exception 500, and the transaction stays in all three cases; no existing row changes |
| Payments.RepeatedInitiateAddsCharge | app/api/payments/initiate/route.ts:34-43 | recording another charge for a task raises its number of pending charges by one, whatever is already open |
| Payments.Settled | app/api/payments/verify/route.ts:24-32 | the settled row keeps the id, task, amount, fee, currency and type, and is COMPLETED with the provider's transaction id, the payment type and the gateway's data |
| Payments.AfterCallback | app/api/payments/verify/route.ts:11-32 | a callback with an accepted status, both ids, an existing `tx_ref` row and a "success" verdict from the gateway replaces exactly that row by its settled form; any other callback leaves the table as it was; the set of transactions never changes |
| Payments.Verify | app/api/payments/verify/route.ts:5-44 | a status other than "successful" or "completed" redirects to the failure view without calling the gateway, even with ids missing; an accepted status with either id missing gives 400; otherwise the gateway is asked about `transaction_id`, and a "success" verdict for an existing `tx_ref` settles that row and redirects to success with its id, while every other outcome, a failing database included, redirects to the error view; the table is the one `AfterCallback` gives, or unchanged when the database fails, and no other table changes |
| Payments.CallbackReplayIsIdempotent | app/api/payments/verify/route.ts:24-32 | delivering the same callback again, with the same gateway verdicts, leaves the table as one delivery left it |
| Payments.CompletedRowIsOverwritten | app/api/payments/verify/route.ts:24-32 | the update does not look at the row's state: a second successful callback with another provider id overwrites a completed transaction |
| Auth.Override | store/auth.ts:24 | one key of a spread: the update's value when it carries the key, else the current one |
| Auth.MergeUser | store/auth.ts:23-24 | the merged user takes each field the update carries and keeps each field it leaves out |
| Auth.MergeIdentityAndIdempotence | store/auth.ts:23-24 | merging the empty update changes nothing, and merging an update twice is merging it once |
| Auth.MergeSequence | store/auth.ts:23-24 | two updates in a row are the single update carrying the keys of both, the second's value winning |
| Auth.AuthStore.constructor | store/auth.ts:17-18 | the store starts logged out, with no user, and the invariant `isAuthenticated` iff a user holds |
| Auth.AuthStore.Login | store/auth.ts:19-21 | logging in sets `isAuthenticated` and the user, keeping the invariant |
| Auth.AuthStore.Logout | store/auth.ts:22 | logging out from any state gives the logged-out state, so it is idempotent |
| Auth.AuthStore.UpdateUser | store/auth.ts:23-24 | without a user nothing changes; with one the user becomes the merge of the update into it; `isAuthenticated` and the invariant are kept |
| Auth.SessionToUser | components/auth-sync.tsx:15-24 | the user built from the session has its id, its name and email or "" when they are falsy, its image exactly when that is truthy, a steward flag that is true exactly when the role is STEWARD, and no other field |
| Auth.Decide | components/auth-sync.tsx:12-30 | the effect logs in exactly when the status is authenticated and the session has a user, with that user mapped; it logs out exactly when the status is unauthenticated and the store is logged in; while loading it does nothing |
| Auth.DecideSettles | components/auth-sync.tsx:12-30 | after the effect's store change it runs again and decides the same login or nothing, so the store settles |
| Auth.Sync | components/auth-sync.tsx:12-30 | one run of the effect leaves the store as its decision says, and keeps the store's invariant |
| BookingsStore.FindService | store/bookings.ts:22 | no service is found exactly when no catalog entry has the id; a found one is a catalog entry with the id |
| BookingsStore.FindServiceIsFirst | store/bookings.ts:22 | the entry found is the first with the id |
| BookingsStore.Store.constructor | store/bookings.ts:20 | the store starts with no bookings |
| BookingsStore.Store.CreateBooking | store/bookings.ts:21-35 | an invalid date stores nothing and returns no id; otherwise the list grows by one, the new confirmed booking with the looked-up service and the given time, address and notes is first, the earlier bookings follow unchanged, and the returned id is the new booking's id |
| BookingSteps.NextStep | components/ui/booking-steps.tsx:23 | the next step is one more, to at most 3, and stays within 1..3 |
| BookingSteps.BackStep | components/ui/booking-steps.tsx:24 | the previous step is one less, to at least 1, and stays within 1..3 |
| BookingSteps.StepRoundTrip | components/ui/booking-steps.tsx:23-24 | from step 1 or 2 going forward and back returns to it; 3 is fixed by going forward and 1 by going back |
| BookingSteps.Wizard.constructor | components/ui/booking-steps.tsx:16-21 | the form starts at step 1 with the time "10:00", empty date, address and notes, not submitting |
| BookingSteps.Wizard.Next | components/ui/booking-steps.tsx:23 | the step becomes the next step and stays within 1..3 |
| BookingSteps.Wizard.Back | components/ui/booking-steps.tsx:24 | the step becomes the previous step and stays within 1..3 |
| BookingSteps.Wizard.SetScheduledDate | components/ui/booking-steps.tsx:58 | the date field takes the input's value |
| BookingSteps.Wizard.SetScheduledTime | components/ui/booking-steps.tsx:60 | the time field takes the input's value |
| BookingSteps.Wizard.SetAddress | components/ui/booking-steps.tsx:67 | the address field takes the input's value |
| BookingSteps.Wizard.SetNotes | components/ui/booking-steps.tsx:74 | the notes field takes the input's value |
| BookingSteps.Wizard.ConfirmEnabled | components/ui/booking-steps.tsx:83 | Confirm is enabled exactly when no submission runs and both date and address are present |
| BookingSteps.Wizard.Submit | components/ui/booking-steps.tsx:26-47 | signed out it goes to sign-in; without date or address it stays; neither books anything; otherwise it makes one booking attempt with the form's fields and goes to that booking's confirmation, or stays and books nothing when the date is invalid; `isSubmitting` is off again afterwards |
| StewardApplication.Apply | app/api/steward-application/route.ts:3-31 | missing skills, experience, availability or bio reject the form before the consents are looked at; otherwise a consent not "on" rejects it; the form is accepted exactly when both checks pass, echoing skills, experience and availability with the mock id, hourly rate 0 and the confirmation redirect |
| StewardApplication.BioIsNotEchoed | app/api/steward-application/route.ts:8-30 | the bio is required but not used: any other non-empty bio gives the same response |
| SignIn.SignIn | app/api/auth/signin/route.ts:3-37 | a body that does not parse gives "Invalid request", and only it does; a falsy email or password gives the missing-fields response, and only it does; a signed-in user has the input email, the role CUSTOMER, is verified and is created now |
| SignIn.PasswordIsNotChecked | app/api/auth/signin/route.ts:8-25 | any two non-empty passwords give the same, successful, response |
| SignUp.PasswordError | app/auth/signup/page.tsx:26-34 | different passwords report the mismatch, before the length is looked at; equal passwords shorter than 6 report the length; no error exactly when they are equal and at least 6 long |
| SignUp.SignUpForm.constructor | app/auth/signup/page.tsx:16-21 | the form starts empty, with no error and not loading |
| SignUp.SignUpForm.HandleSubmit | app/auth/signup/page.tsx:23-49 | a failed check sets its error and calls nothing; once both pass, `login` is called with email and name while the error is clear and loading is on, and loading is off again at the end |
| Dashboard.StatusBadge | app/dashboard/page.tsx:17-49 | CONFIRMED, COMPLETED and CANCELLED get their own badge, each exactly from that string; every other string, PENDING included, gets the pending badge |
| Dashboard.BadgeOfBookingStates | app/dashboard/page.tsx:17-49 | of the five booking states an in-progress booking is shown as Pending; the other four show their own label |
| Dashboard.UseUserData | app/dashboard/page.tsx:11-15 | the recent bookings are the first min(3, n) store bookings in store order; the steward flag is true exactly when there is a user whose flag is set |
| Dashboard.SignInRedirect | app/dashboard/page.tsx:51-55 | the page redirects to sign-in exactly when the store is not authenticated or holds no user; otherwise it renders with the store's user |
| ServiceCard.NextMatchFindsContained | components/ui/service-card.tsx:15 | a match of the lower-cased query is found in the lower-cased text exactly when the text contains the query ignoring case |
| ServiceCard.SplitIsOdd | components/ui/service-card.tsx:17 | the split always gives an odd number of pieces |
| ServiceCard.LowerPieces | components/ui/service-card.tsx:17 | in the split of the lower-cased text the odd-numbered pieces are the query and no even-numbered piece contains it: text and matches alternate |
| ServiceCard.SplitJoins | components/ui/service-card.tsx:17 | the pieces of the split join back to the text |
| ServiceCard.SplitCommutesWithLower | components/ui/service-card.tsx:17 | splitting the text and lower-casing each piece gives the pieces of the lower-cased text |
| ServiceCard.Mark | components/ui/service-card.tsx:20-26 | one fragment per piece carrying that piece, marked exactly when it lower-cases to the query |
| ServiceCard.Highlight | components/ui/service-card.tsx:14-29 | without a query, or when the text does not contain it ignoring case, the text is one unmarked fragment; otherwise the fragments are the pieces of the split; their texts always join back to the text; a fragment is marked exactly when it equals the query ignoring case |
| ServiceCard.MarkedAreTheMatches | components/ui/service-card.tsx:17-26 | for a query the text contains there is more than one fragment, and exactly the odd-numbered ones, the matches, are marked |
| ServiceCard.CardImage | components/ui/service-card.tsx:40 | the first image when there is a non-empty one, else the placeholder |
| ServiceCard.StewardAvatar | components/ui/service-card.tsx:58 | the steward's image when truthy, else the default avatar |
| FilterChips.Without | components/ui/filter-chips.tsx:20 | the entries under other keys, and no entry under the key |
| FilterChips.SetParamValue | components/ui/filter-chips.tsx:8-10 | after setting a key it has exactly the one value set |
| FilterChips.SetParamKeepsOthers | components/ui/filter-chips.tsx:19-20 | setting a key leaves the entries under every other key as they were, in order |
| FilterChips.SetParamLastWins | components/ui/filter-chips.tsx:20 | setting a key twice is setting it to the second value, so the same chip twice is that chip once |
| FilterChips.SearchParams.constructor | components/ui/filter-chips.tsx:19 | the new parameters are a copy of the given ones |
| FilterChips.SearchParams.Set | components/ui/filter-chips.tsx:20 | the entries become those of setting the key to the value |
| FilterChips.ChipLabelsNamePrices | components/ui/filter-chips.tsx:7-11 | each chip's label is "Under $" followed by the price it sets, and the labels are distinct |
| FilterChips.ApplyChip | components/ui/filter-chips.tsx:18-22 | a new parameter object holds the current entries with `price` set to the chip's value, and the current parameters are not changed |
| ImageWithFallback.Image.constructor | components/ui/image-with-fallback.tsx:11-12 | the image shows its source first; the fallback is "/default-avatar.png" unless one is given |
| ImageWithFallback.Image.OnError | components/ui/image-with-fallback.tsx:19-21 | after an error the fallback is shown, a further error changes nothing, and the shown source is always the source or the fallback |

## Left out

- Sessions, Prisma, Next.js routing and responses: sessions are an optional user id, so a session always carries `user.id` when it carries a user, tables are maps or sequences, and responses are datatypes naming the status and payload. Redirect URLs are not built.
- The payment gateway (lib/flutterwave.ts): it is an oracle function. Network failures are its `...Threw` replies.
- Payments.Initiate: the amount is sent as a real, not as the string `toString()` produces. The platform fee is the exact tenth, not the floating-point product `* 0.1`.
- ServicesPage.ResolveOrder: ordering by the nullable `currency` column, or by a column the `Service` datatype does not carry, gives `Rejected` here, where the database may sort by it.
- ServicesPage.ResolveOrder: the text columns are ordered by a `collate` rank that stands for the database's collation, so the order among text values is not spelled out.
- BookingsApi.PostBooking, Payments.Initiate: one `dbFails` flag stands for every database call of the handler, so a lookup that succeeds followed by an insert that throws is not told apart from a failing lookup.
- `auth()` throwing inside the route handlers is not modelled.
- Date and time formatting (`toISOString`, `toLocaleTimeString`, `toFixed`): instants are integers. An invalid `Date` is `None`; its ISO formatting would throw.
- `Math.random` ids in the bookings store: the random part is the parameter `idSuffix`.
- Zustand `persist` (localStorage) for both client stores is not modelled.
- Router navigation: it is a returned `Navigation` value or not modelled. The sign-up page's one-second delay and push to `/services` are not modelled.
- SignUp.SignUpForm.HandleSubmit: the model records the `login(email, name)` call's arguments, not its effect on the auth store. The call passes two strings where the store expects one user object.
- Auth.MergeUser: an update explicitly setting a required field (`id`, `name`, `email`) to `undefined` is not modelled.
- Regular-expression metacharacters in the highlight query: the query is taken as a literal string.
- Case-insensitive matching: it is ASCII lower-casing only, with no Unicode case folding.
- `parseInt` of the price cap: the cap arrives as an already parsed integer or `None`.
- The home page's reading of the `.data` field of the fetched responses: the fetched lists are inputs, and a failed fetch is `None`.
- URLSearchParams string serialisation and the `router.replace` navigation in the filter chips are not modelled. The chips are rendered only as the `PriceChips` constant.
- The bookings page's copy of the status badge switch is the same mapping and is covered by Dashboard.StatusBadge.
- Password length: it counts characters of the Dafny string, not UTF-16 code units.
- The catalog fixture of the bookings store (data/services.ts): it is the store's constructor parameter.
