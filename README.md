# ChequeSaathi core, modelled in Dafny

ChequeSaathi is a cheque and cash-transaction book for small businesses. The
backend keeps three soft-deletable tables:

- customers;
- the cheques received from them or paid to them;
- cash transactions.

A handler per operation checks the request, consults the store and writes to
it. Two report handlers reduce the live rows into dashboard figures. The
frontend adds a status dialog that proposes the next cheque status, five form
schemas, and a middleware that decides whether a page loads or redirects.

Modules of this model:

- `Wrappers`, `Seqs`: `Option`, and the two query shapes used against a table held as a sequence. `Find` is "first matching row" (Prisma `findFirst`). `Filter` is "all matching rows, in order" (`findMany`, `Array.filter`).
- `Domain`: the enumerations, the three row types, the HTTP statuses, and JavaScript truthiness of request fields (`Present`, `NonZero`, `OrNull`, `Overlay` for the object spread).
- `Store`: the class `Database`, whose fields are the three tables; the controller methods write those fields in place. The module's lookups return the index of the first live row with an id.
- `Paging`: skip and `Math.ceil(total / limit)` for the three list handlers.
- `ChequeController`, `CustomerController`, `TransactionController`: one method per handler. Each method modifies only the table its handler writes. A method is specified by a pure function of the old table, and the invariants it keeps are proved as lemmas.
- `Lifecycle`: `getNextStatus`, `getStatusOptions` and the `onSubmit` payload of the status dialog, plus the graph properties of the transitions it offers.
- `Ledger`, `Dashboard`: the filter, count and sum reductions of the two report handlers.
- `Validations`: the zod schemas as predicates, and how they agree with the server's required-field tests.
- `RouteGate`: the middleware decision.

The model's conventions:

- Amounts are integers in paise.
- Instants are integer milliseconds.
- "Now", "today" (local midnight), the caller's id and the id of a new row are parameters.

Two behaviours of the code are stated as they are written:

- **The server does not enforce the cheque lifecycle.** `updateChequeStatus` stores any requested status, whatever the current one. A cleared cheque can be set back to received (`FinalChequeCanBeReopened`). Only the frontend dialog restricts the choices (`Lifecycle`).
- **An empty value skips the uniqueness tests.** An edit that sends an empty cheque number, email or phone skips the check, because the value is falsy. The empty value is still written. So two live cheques of one customer can end up with the same (empty) number (`EmptyNumberSlipsThrough`). The preservation lemmas carry "not empty" as a hypothesis.

## Model

| member | source | states |
|---|---|---|
| Store.CustomerGoneAfterDelete | backend/src/controllers/customerController.ts:222-237 | once the row is stamped deleted, no live customer with that id is found, so get, update and delete answer 404 |
| Store.ChequeGoneAfterDelete | backend/src/controllers/chequeController.ts:379-394 | once the row is stamped deleted, no live cheque with that id is found |
| Store.TransactionGoneAfterDelete | backend/src/controllers/transactionController.ts:252-267 | once the row is stamped deleted, no live transaction with that id is found |
| Seqs.Find | backend/src/controllers/chequeController.ts:201-203 | the result is the first index whose row satisfies the test; it is None exactly when no row does |
| Seqs.Filter | backend/src/controllers/dashboardController.ts:23-41 | the kept rows all satisfy the test, come from the input, and include every input row that satisfies it |
| Seqs.FilterMonotone | backend/src/controllers/dashboardController.ts:23-41 | filtering by a stronger test keeps a sub-multiset of filtering by a weaker one |
| Seqs.FilterExtensional | backend/src/controllers/transactionController.ts:86-139 | filters by tests that agree on every row are equal, so the `where` object counts the rows the query asks for |
| Paging.TotalPages | backend/src/controllers/chequeController.ts:181-188 | for a positive limit, the page count is the least n with total <= n·limit, and it is 0 exactly when there are no rows; a zero limit gives null; for a negative limit, the count is the least n with n·limit <= total, which is <= 0 (Math.ceil of the negative quotient) |
| Paging.PageStartsInsideResults | backend/src/controllers/chequeController.ts:122-124 | for a positive limit, page p starts inside the results (skip < total) exactly when p <= totalPages |
| ChequeController.NewCheque | backend/src/controllers/chequeController.ts:65-83 | the created cheque is live and RECEIVED; customer, number, amount, bank, type, direction, drawer, payee, issue and due dates are the request's; a truthy branch, IFSC or notes is stored as sent and an empty one as null; no lifecycle dates; the caller is creator and updater |
| ChequeController.CreateCheque | backend/src/controllers/chequeController.ts:29-99 | 400 exactly when a required field is falsy; else 404 exactly when the customer is missing or deleted; else 409 exactly when a live cheque of that customer has the number; else 201 with the new row appended; the table changes only on 201 |
| ChequeController.BuildChequeWhere | backend/src/controllers/chequeController.ts:126-149 | the `where` built one filter at a time matches a row exactly when the row is live and agrees with every truthy filter |
| ChequeController.ListCheques | backend/src/controllers/chequeController.ts:122-188 | total is the number of live cheques matching the filters; skip and totalPages follow the paging rules |
| ChequeController.GetChequeById | backend/src/controllers/chequeController.ts:201-223 | 404 exactly when no live cheque has the id, otherwise exactly the stored row of the first live cheque with that id |
| ChequeController.UpdatedCheque | backend/src/controllers/chequeController.ts:265-276 | every editable column is the sent value when its key is sent and the stored one otherwise (a branch name, IFSC code or notes sent as null clears the column); id, customer, status, lifecycle dates, deletion and creator are kept; the caller becomes the updater; an empty body changes only the updater |
| ChequeController.UpdateCheque | backend/src/controllers/chequeController.ts:236-296 | 404 for a missing or deleted cheque; 409 exactly when a truthy, changed number is held by another live cheque of the customer; otherwise that one row becomes the updated cheque |
| ChequeController.StatusApplied | backend/src/controllers/chequeController.ts:325-346 | the requested status is stored whatever the current one; a supplied deposit, cleared or bounced date is written when it goes with the requested status, and a lifecycle date changes only that way, so a status sent without its date keeps the stored date; a truthy bounce reason is written with BOUNCED and the reason changes only then; nothing else but the updater changes |
| ChequeController.StatusUpdateIdempotent | backend/src/controllers/chequeController.ts:325-346 | applying the same status request a second time leaves the cheque as the first application left it |
| ChequeController.UpdateChequeStatus | backend/src/controllers/chequeController.ts:310-366 | 400 without a status, 404 for a missing or deleted cheque, otherwise 200 with the status applied to that row alone |
| ChequeController.DeleteCheque | backend/src/controllers/chequeController.ts:379-396 | 404 for a missing or deleted cheque; otherwise only deletedAt and the updater are set, and the cheque is no longer found |
| ChequeController.CreateKeepsNumbersUnique | backend/src/controllers/chequeController.ts:49-62 | a create that passed the duplicate test keeps cheque numbers unique per customer among live cheques |
| ChequeController.UpdateKeepsNumbersUnique | backend/src/controllers/chequeController.ts:246-262 | an edit that passed the duplicate test, with a non-empty number, keeps numbers unique |
| ChequeController.EmptyNumberSlipsThrough | backend/src/controllers/chequeController.ts:246 | an edit that sends an empty number passes the test and leaves two live cheques of one customer with the same number |
| ChequeController.FinalChequeCanBeReopened | backend/src/controllers/chequeController.ts:325-329 | the server moves a CLEARED cheque back to RECEIVED, a step the dialog never offers |
| Lifecycle.StatusOptions | frontend/components/cheques/update-status-dialog.tsx:53-65 | the offered statuses never include the current one or RECEIVED, and have no repeats |
| Lifecycle.NextStatus | frontend/components/cheques/update-status-dialog.tsx:42-51 | from a non-final status, the proposed status is one of the offered ones; a final status is proposed unchanged |
| Lifecycle.FinalStates | frontend/components/cheques/update-status-dialog.tsx:59-61 | a status offers nothing exactly when it is CLEARED or BOUNCED |
| Lifecycle.NoSkipFromReceived | frontend/components/cheques/update-status-dialog.tsx:55-56 | a received cheque cannot be marked cleared or bounced directly |
| Lifecycle.StepLowersRank | frontend/components/cheques/update-status-dialog.tsx:53-65 | every offered step strictly lowers the distance to a final status |
| Lifecycle.PathLowersRank | frontend/components/cheques/update-status-dialog.tsx:53-65 | along any chain of offered steps, the rank strictly decreases |
| Lifecycle.Acyclic | frontend/components/cheques/update-status-dialog.tsx:53-65 | no chain of offered steps returns to its start |
| Lifecycle.PathLength | frontend/components/cheques/update-status-dialog.tsx:53-65 | a chain of offered steps has at most two steps |
| Lifecycle.MaximalPathEndsFinal | frontend/components/cheques/update-status-dialog.tsx:53-65 | a chain that cannot be extended ends in CLEARED or BOUNCED |
| Lifecycle.ReachableFromReceived | frontend/components/cheques/update-status-dialog.tsx:53-65 | every status is reachable from RECEIVED by offered steps |
| Lifecycle.BuildStatusPayload | frontend/components/cheques/update-status-dialog.tsx:73-83 | the payload carries the new status; it carries a deposit, clearing or bounce date exactly for that status, and the bounce reason exactly for BOUNCED, each taken from the form |
| CustomerController.ContactClash | backend/src/controllers/customerController.ts:16-35 | there is a conflict exactly when a live customer shares the email or the phone; the email message implies the email is taken, the phone message implies the phone is |
| CustomerController.PhoneReportedDespiteEmailClash | backend/src/controllers/customerController.ts:16-35 | when the first row found shares the phone and a later one the email, the phone message is given although the email is taken |
| CustomerController.NewCustomer | backend/src/controllers/customerController.ts:37-49 | the created customer is live with risk score 0, copies name, phone and email; a truthy business name, address or notes is stored as sent and an empty one as null; the caller is creator and updater |
| CustomerController.CreateCustomer | backend/src/controllers/customerController.ts:10-53 | 400 exactly when name, phone or email is falsy; 409 exactly when a live customer shares the email or phone; otherwise 201 with the row appended; the table changes only on 201 |
| CustomerController.ListCustomers | backend/src/controllers/customerController.ts:64-102 | total counts the live customers; skip and totalPages follow the paging rules; page and limit are echoed back |
| CustomerController.RiskScore | backend/src/controllers/customerController.ts:135-137 | the score is between 0 and 100; it is 0 without cheques; otherwise it is 100·bounced/total rounded to the nearest integer, halves up |
| CustomerController.OneBouncedOfFour | backend/src/controllers/customerController.ts:135-137 | one bounced cheque in four scores 25 |
| CustomerController.BouncedScoresAboveZero | backend/src/controllers/customerController.ts:135-137 | the score is positive exactly when at least one cheque in two hundred bounced |
| CustomerController.RareBounceScoresZero | backend/src/controllers/customerController.ts:135-137 | one bounced cheque in three hundred still scores 0 |
| CustomerController.ScoreOf | backend/src/controllers/customerController.ts:126-137 | the score computed from the customer's live cheques is at most 100, and positive exactly when bounced cheques make up at least half a percent |
| CustomerController.Reconciled | backend/src/controllers/customerController.ts:140-145 | after the write-back the customer's stored score is the computed one, and every other row is unchanged |
| CustomerController.ReadIsIdempotent | backend/src/controllers/customerController.ts:140-145 | after one read, a second read with unchanged cheques finds the score already stored and writes nothing |
| CustomerController.GetCustomerById | backend/src/controllers/customerController.ts:116-152 | 404 for a missing or deleted customer; otherwise the figures of its live cheques, with the score written back exactly when it differs from the stored one |
| CustomerController.UpdatedCustomer | backend/src/controllers/customerController.ts:197-203 | name, phone and email are the sent value when sent and the stored one otherwise; a sent business name, address or notes replaces the stored one, and one sent as null clears it; id, score, deletion and creator are kept; the caller becomes the updater; an empty body changes only the updater |
| CustomerController.UpdateCustomer | backend/src/controllers/customerController.ts:168-207 | 404 for a missing or deleted customer; 409 with the email message exactly when a truthy, changed email belongs to another live customer, else with the phone message for the phone; otherwise only that row is updated |
| CustomerController.DeleteCustomer | backend/src/controllers/customerController.ts:222-239 | 404 for a missing or deleted customer; otherwise only deletedAt and the updater are set, and the customer is no longer found |
| CustomerController.CreateKeepsContactsUnique | backend/src/controllers/customerController.ts:16-49 | a create that passed the conflict test keeps emails and phones unique among live customers |
| CustomerController.UpdateKeepsContactsUnique | backend/src/controllers/customerController.ts:178-203 | an edit that passed both tests, sending no empty email or phone, keeps contacts unique |
| TransactionController.NewTransaction | backend/src/controllers/transactionController.ts:30-42 | the created transaction is live with the request's customer, amount, type and date and the request's method as its payment method; a truthy reference, category or notes is stored as sent and an empty one as null; the caller is creator and updater |
| TransactionController.CreateTransaction | backend/src/controllers/transactionController.ts:11-59 | 400 exactly when customerId, amount (0 included), type, method or date is falsy; 404 exactly when the customer is missing or deleted; otherwise 201 with the row appended |
| TransactionController.BuildTransactionWhere | backend/src/controllers/transactionController.ts:86-119 | the `where` built one filter at a time matches exactly the live rows agreeing with every truthy filter and dated within the inclusive range; it has a date condition exactly when a bound was given |
| TransactionController.ListTransactions | backend/src/controllers/transactionController.ts:82-149 | total is the number of matching transactions; skip and totalPages follow the paging rules |
| TransactionController.RangeIncludesBothEnds | backend/src/controllers/transactionController.ts:111-119 | a transaction dated exactly on the start or the end of the range is listed |
| TransactionController.WiderRangeListsMore | backend/src/controllers/transactionController.ts:111-119 | widening or dropping a date bound never removes a transaction from the list |
| TransactionController.GetTransactionById | backend/src/controllers/transactionController.ts:162-183 | 404 exactly when no live transaction has the id, otherwise exactly the stored row of the first live transaction with that id |
| TransactionController.BuildTransactionPatch | backend/src/controllers/transactionController.ts:206-219 | the data handed to the store has no `method` key; the sent method appears as paymentMethod; the other sent fields, customerId included, are copied and the caller is the updater |
| TransactionController.UpdatedTransaction | backend/src/controllers/transactionController.ts:206-223 | the customer, payment method, amount, type and date are the sent ones when sent and the stored ones otherwise, so a sent customerId moves the transaction without any check that the customer exists; a sent reference, category or notes replaces the stored one, and one sent as null clears it; id, deletion and creator are kept; the caller becomes the updater; an empty body changes only the updater |
| TransactionController.UpdateTransaction | backend/src/controllers/transactionController.ts:196-239 | 404 for a missing or deleted transaction; otherwise only that row becomes the updated transaction |
| TransactionController.DeleteTransaction | backend/src/controllers/transactionController.ts:252-269 | 404 for a missing or deleted transaction; otherwise only deletedAt and the updater are set, and the transaction is no longer found |
| Dashboard.BreakdownCoversAll | backend/src/controllers/dashboardController.ts:44-49 | the four status counts add up to the number of cheques |
| Dashboard.PendingIsReceivedPlusDeposited | backend/src/controllers/dashboardController.ts:146-154 | the pending cheques are the received plus the deposited ones, in count and in amount |
| Dashboard.AmountsCoverAll | backend/src/controllers/dashboardController.ts:52-62 | receivable (not cleared) + payable (not cleared) + cleared equals the sum of all amounts |
| Dashboard.CashFlowCoversAll | backend/src/controllers/dashboardController.ts:74-80 | credit and debit partition the transactions, in count and in amount |
| Dashboard.TodayWithinPipeline | backend/src/controllers/dashboardController.ts:23-41 | every cheque due today is in the seven-day pipeline, so today's count, and with non-negative amounts today's amount, are at most the pipeline's |
| Dashboard.MidnightBelongsToTomorrow | backend/src/controllers/dashboardController.ts:11-28 | a cheque due exactly at the next midnight is in the pipeline but not due today |
| Dashboard.GetDashboardStats | backend/src/controllers/dashboardController.ts:17-118 | dueToday is exactly the live RECEIVED cheques due in [today, tomorrow) and todaysDeposits its count and sum; the pipeline is the count and sum of those due in [today, today + 7 days); pending clearances are the count and sum of the DEPOSITED ones; the breakdown, amounts and cash flow are their blocks over the live rows; the totals count the live rows; today's count, and with non-negative amounts today's amount, are at most the pipeline's |
| Dashboard.BreakdownOf | backend/src/controllers/dashboardController.ts:44-49 | each count is the number of cheques with that status, and the four add up to all cheques |
| Dashboard.AmountsOf | backend/src/controllers/dashboardController.ts:52-62 | receivable and payable are the sums over not-cleared cheques of that direction, cleared the sum over CLEARED ones, and the three add up to all amounts |
| Dashboard.CashFlowOf | backend/src/controllers/dashboardController.ts:74-117 | credit and debit are the sums over CREDIT and DEBIT transactions, they add up to all amounts, and net = credit − debit |
| Dashboard.SummaryOf | backend/src/controllers/dashboardController.ts:141-184 | the customer's fields and stored risk score are reported; over the customer's live cheques, bounced, cleared and pending (RECEIVED or DEPOSITED) are the counts of those statuses and add up to the total; pendingAmount is the sum over the pending ones, between 0 and totalAmount with non-negative amounts; credit and debit are the sums over the customer's live transactions of each type and net = credit − debit |
| Dashboard.PendingAtMostTotal | backend/src/controllers/dashboardController.ts:151-154 | with non-negative amounts, the pending amount is between 0 and the total amount |
| Dashboard.GetCustomerWiseSummary | backend/src/controllers/dashboardController.ts:128-190 | exactly one entry per live customer, in table order, and totalCustomers is the number of entries |
| Validations.ParseChequeType | frontend/lib/validations.ts:30 | accepts exactly AT_SIGHT and POST_DATED |
| Validations.ParseDirection | frontend/lib/validations.ts:31 | accepts exactly RECEIVABLE and PAYABLE |
| Validations.ParsePaymentMethod | frontend/lib/validations.ts:43 | accepts exactly the seven listed methods |
| Validations.ParseTransactionType | frontend/lib/validations.ts:44 | accepts exactly CREDIT and DEBIT |
| Validations.EnumNamesRoundTrip | frontend/lib/validations.ts:30-44 | each listed value is accepted and read back as itself |
| Validations.RegisteredCredentialsPassLogin | frontend/lib/validations.ts:3-12 | both forms require a password of at least 6 characters; valid register credentials pass the login form |
| Validations.PhoneLengthWindow | frontend/lib/validations.ts:14-17 | with a valid name and email, a customer is valid exactly when the phone has 10 to 15 characters, both ends included |
| Validations.HalfRupeeChequeRejected | frontend/lib/validations.ts:26 | an amount of 50 paise is greater than zero, yet the cheque form rejects it |
| Validations.OptionalFieldsIrrelevant | frontend/lib/validations.ts:18-47 | the optional fields of the customer, cheque and transaction forms never change validity |
| Validations.ValidChequeFormPassesServer | frontend/lib/validations.ts:23-37 | a valid cheque form passes the create handler's required-field test |
| Validations.ValidTransactionFormPassesServer | frontend/lib/validations.ts:39-48 | a valid transaction form passes the create handler's required-field test |
| Validations.ValidCustomerFormPassesServer | frontend/lib/validations.ts:14-21 | a valid customer form passes the create handler's required-field test |
| RouteGate.HostnameOf | frontend/middleware.ts:30-31 | the hostname is the longest prefix of the host header without a colon |
| RouteGate.IsCrossDomain | frontend/middleware.ts:19-39 | an empty API URL, one starting with '/', or one the URL parser rejects is same-domain; otherwise the API is cross-domain exactly when its hostname differs from the host's |
| RouteGate.PortIgnored | frontend/middleware.ts:29-34 | a host header that differs from the API hostname only by a port is same-domain |
| RouteGate.Middleware | frontend/middleware.ts:15-76 | cross-domain requests and public routes pass; a redirect to login only happens without a token, to a protected path, carrying the path; a redirect to the dashboard only happens with a token, from an auth path |
| RouteGate.PublicRoutesAreUnguarded | frontend/middleware.ts:50-66 | no public route starts with an auth or a protected prefix |
| RouteGate.AuthPagesRedirectSignedIn | frontend/middleware.ts:56-62 | on the same domain, a path starting with /login or /register redirects to the dashboard exactly when a token is present, and passes otherwise |
| RouteGate.ProtectedPagesNeedToken | frontend/middleware.ts:65-73 | on the same domain, a protected path without a token redirects to login with the path; with a token it passes |
| RouteGate.OtherPagesPass | frontend/middleware.ts:75 | any path outside the auth and protected groups passes |
| RouteGate.RedirectsMatchToken | frontend/middleware.ts:56-73 | a request with a token is never sent to login, and one without a token never to the dashboard |
| RouteGate.PrefixCatchesNeighbours | frontend/middleware.ts:57 | the prefix test treats "/login-help" as a login page and "/cheques/abc" as protected |

## Left out

- Database I/O is an in-memory table per model. Concurrent requests are not modelled, including the check-then-write race between a duplicate test and the write and the parallel `Promise.all` queries. Every handler runs alone.
- The 500 answers of the `catch` blocks are not modelled: store failures, an invalid date string, and an unknown `sortBy` key. An invalid enum value in a query that the store rejects is also not modelled.
- A status request whose `status` is not one of the four values is written to the store, which rejects it with a 500 (backend/src/controllers/chequeController.ts:348); the model's status is always one of the four.
- `findFirst` without an `orderBy` returns whichever matching row the store finds first; the model takes table order. ContactClash and PhoneReportedDespiteEmailClash depend on that choice when several rows match.
- Keys in an edit body beyond the declared ones are not modelled: `updateCheque`, `updateCustomer` and `updateTransaction` spread the whole body into the store update. The declared keys are modelled, plus the `customerId` that the transaction edit dialog sends. A null sent for a column that is not nullable is rejected by the store with a 500, which is not modelled: such a key is either absent or carries a value.
- `createdAt`/`updatedAt` timestamps, which the store maintains, are not modelled.
- Amounts are exact integers in paise. The code sums `Number(amount)` as floating point, and the client parses amounts with `parseFloat`.
- CustomerController.RiskScore: computes the exact round-half-up of 100·bounced/total. `Math.round` over a floating-point quotient can differ when the product lands within rounding error of a half.
- Dates are integer instants. `new Date(...)` parsing is not modelled, nor `setHours` in the server's local time zone; a day is 86 400 000 ms, so a daylight-saving day of another length is not modelled.
- Sort order (`orderBy`) and the case-insensitive `search` filters of the cheque and customer lists are not modelled. The list handlers' rows on a page are not modelled, only the count, skip and page count. So ListCheques, ListCustomers and ListTransactions state the total and paging, not the row contents.
- `parseInt` of page and limit (NaN for non-numbers) is not modelled: page and limit are integers. A negative skip is passed to the store unchecked; the store rejects it, which is not modelled.
- The email test of the schemas (`z.string().email()`) is an input, `emailOk`. String lengths count characters, not UTF-16 code units.
- `new URL(apiUrl).hostname` is an input (`apiHostname`, None when the URL does not parse). Reading the `token` cookie is an input (`hasToken`). The `matcher` config that excludes `/api` and static assets is not modelled.
- Authentication and tokens (the JWT helpers, the auth middleware, the auth controller), the React components other than the status dialog's two functions and its payload, the API client and the Express routing are not part of this model.
- `getRecentActivity` is not modelled: it is only store ordering and a row limit.
- The frontend's mapping from a form to a request body is taken to send each field under its own name (`ChequeBodyOf`, `TransactionBodyOf`, `CustomerBodyOf`). The dialogs that do it are not part of this model.
- The related customer, cheque and transaction objects that `include` adds to responses are not modelled.
