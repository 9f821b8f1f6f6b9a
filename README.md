# Unnati ERP core, modelled in Dafny

This project models the core of a small export-pharma ERP: the access
control of its dashboard, the server routes that create and change its
records, and the logic its dashboard pages run on the lists they hold.

- **Access control.** The role table and `canAccess` of the auth library, and the
  request gate in front of `/dashboard`. A verified session token and its role are
  parameters.
- **Export invoice numbering.** The financial-year key (April to March), the
  `E-<fy>-<counter>` number, the per-year counter table, and the POST that hands a
  number to a PAYMENT_VERIFIED order and moves it to PACKING.
- **Packaging.** The GET that lists the orders ready for packing, with the INR unit
  price (latest purchase rate plus 15 %), item amounts and totals. On the page: the
  dollar amount written out in words, and the ready and packing lists after an
  invoice is generated.
- **Purchase bills.** The save route: party upsert, the product upsert loop, the
  bill and one purchase item per line, all in one transaction. On the page: matching
  scanned lines to the product master, and the field updaters.
- **Client order intake.** Single-use form links, which are locked, consumed and
  tied to one order. Reusable account links, which create one order per submission
  without touching the account's balance. Creation of an account with its opening
  ledger credit and its link.
- **Order entry.** Ordered validation, and the entry upsert that replaces the items.
- **Master data and users.** Products, parties, user creation and login, and the
  setup, product-master, party-master and ledger pages.

Each route is a function from the tables it touches and the request to a reply
and the new tables (`...Step`). A method on the `Db.Database` class performs the
same change on the database's fields and is proved equal to it. Properties are
lemmas over the step functions.

Tables of rows that are only ever appended are sequences, and a row's id is its
position. Links are maps keyed by token, order entries are keyed by order id,
and the invoice counters are keyed by financial-year key. Everything outside the
program is a parameter:
- the clock (`now`, month and year);
- the random link token;
- JWT verification, bcrypt's hash and compare;
- JavaScript's `Number` on typed text and `toString` on numbers;
- the configured base URL;
- the replies of fetches a page makes.

JavaScript truthiness (`||`, `??`, `x ? x : null`) is written out explicitly in
`Common`. `Math.round(x * 100) / 100` is exact rounding on reals (`Round2`).

Some behaviour of the code as written is stated as lemmas rather than hidden:
- A verified token whose role is not in the gate's table is redirected to
  `/dashboard`, and redirected again from there
  (`Middleware.DenialRedirectSettles`). The exception is a role that names a
  property every JavaScript object inherits, such as "constructor": the
  table lookup then yields no array, the permission check throws, and the
  request goes to `/login` (`Middleware.InheritedRoleRedirectsToLogin`).
- The middleware runs only on the paths its matcher `/dashboard/:path*`
  accepts, so "/dashboardx" passes without a cookie although the function's
  own prefix test would send it to `/login` (`Middleware.UnmatchedPasses`).
- A single-use link is locked before its order is created. If the create
  fails, the reply is 400 and the link stays used with no order
  (`ClientFormSubmit.SingleLinkConsumed`).
- A latest purchase rate below 0.005 / 1.15 gives an INR unit price of 0 and no
  amount (`PackagingOrders.TinyRateExample`).
- The generic client-form route accepts an active reusable link of an inactive
  account, which the dedicated route refuses
  (`ClientMultiFormSubmit.InactiveAccountAcceptedByFormRoute`).
- A username of white space alone passes the users route's check and is stored
  empty (`UsersRoute.BlankUsernameStoredEmpty`).

## Model

| member | source | states |
|---|---|---|
| Invoice.FinancialYearSpan | src/app/api/packaging/invoice/route.ts:15-17 | the key is the last two digits of the start year followed by those of the year after it: the year always ends the calendar year after it starts |
| Invoice.SameFinancialYear | src/app/api/packaging/invoice/route.ts:12-17 | April–December of year y and January–March of y+1 get the same key |
| Invoice.FinancialYearDigits | src/app/api/packaging/invoice/route.ts:17 | the key is four digits: the last two of the start year, then the last two of the end year |
| Invoice.FinancialYearExample | src/app/api/packaging/invoice/route.ts:9-17 | April 2025 gives "2526" |
| Invoice.MarchExample | src/app/api/packaging/invoice/route.ts:15-17 | March 2025 gives "2425" |
| Invoice.NewKeyEachApril | src/app/api/packaging/invoice/route.ts:15-17 | March and the following April have different keys, so numbering restarts every April |
| Invoice.InvoiceNumberLayout | src/app/api/packaging/invoice/route.ts:58-59 | a number is "E-", the key, "-", then the counter's digits |
| Invoice.InvoiceNumberRoundTrip | src/app/api/packaging/invoice/route.ts:58-59 | parsing a number gives back the key and counter it was made from |
| Invoice.InvoiceNumberInjective | src/app/api/packaging/invoice/route.ts:58-59 | different (key, counter) pairs give different numbers |
| Invoice.CounterDigits | src/app/api/packaging/invoice/route.ts:58 | the counter is zero-padded to at least 3 digits and never truncated: its digits read back as the counter |
| Invoice.InvoiceNumberExample | src/app/api/packaging/invoice/route.ts:59 | the first number of "2526" is "E-2526-001" |
| Invoice.NextCounter | src/app/api/packaging/invoice/route.ts:53-57 | the upserted counter is 1 for a new year and the previous number plus one otherwise |
| Invoice.NextNumberIsFresh | src/app/api/packaging/invoice/route.ts:53-59 | the next number of a year has not been issued under the current counters |
| Invoice.IssuedUnderRaise | src/app/api/packaging/invoice/route.ts:53-57 | raising one year's counter keeps every number issued so far counted as issued |
| Invoice.GenerateInvoice | src/app/api/packaging/invoice/route.ts:20-73 | the handler changes the orders and counters exactly as the step function says |
| Invoice.ForbiddenChangesNothing | src/app/api/packaging/invoice/route.ts:21-23 | callers outside ADMIN, MANAGER and PACKAGING get 403 and nothing changes |
| Invoice.ErrorsChangeNothing | src/app/api/packaging/invoice/route.ts:25-47 | in check order: no order id gives 400, an unknown order gives 404, an un-invoiced order not PAYMENT_VERIFIED gives 400; none changes anything |
| Invoice.ExistingInvoiceReturned | src/app/api/packaging/invoice/route.ts:38-41 | an order that already has a number gets it back marked existing, and nothing changes |
| Invoice.FreshInvoice | src/app/api/packaging/invoice/route.ts:49-72 | a PAYMENT_VERIFIED order without a number gets the year's next number, the time and status PACKING; only that year's counter and only that order change |
| Invoice.SecondRequestIdempotent | src/app/api/packaging/invoice/route.ts:38-72 | asking again for the same order returns the number just given and changes nothing |
| Invoice.ConsecutiveInFinancialYear | src/app/api/packaging/invoice/route.ts:52-59 | two fresh invoices in one financial year get consecutive counters |
| Invoice.StepKeepsNumbering | src/app/api/packaging/invoice/route.ts:20-73 | every request keeps the invariant that each order's number was issued and no two orders share one |
| Invoice.NumberingPreserved | src/app/api/packaging/invoice/route.ts:52-70 | giving an un-invoiced order its year's next number keeps that invariant |
| Invoice.StepKeepsTablesValid | src/app/api/packaging/invoice/route.ts:63-70 | a request keeps every foreign key valid |
| Auth.AdminAccessesEverything | src/lib/auth.ts:53-62 | ADMIN may open every path |
| Auth.SegmentMatchingExample | src/lib/auth.ts:63 | matching is by whole segments: "/dashboard/partyx" is not under "/dashboard/party", "/dashboard/party/new" is |
| Auth.EntriesUnderDashboard | src/lib/auth.ts:52-58 | every entry of every non-wildcard list is "/dashboard" or under "/dashboard/" |
| Auth.CanAccessCharacterization | src/lib/auth.ts:52-64 | for every role other than ADMIN, canAccess holds exactly for "/dashboard" and paths under "/dashboard/" |
| Auth.DashboardOpenToAll | src/lib/auth.ts:53-63 | every role may open "/dashboard" |
| Auth.DashboardSubpathsOpenToAll | src/lib/auth.ts:53-63 | every role may open every path under "/dashboard/" |
| Auth.MenuConsistent | src/lib/auth.ts:41-64 | each menu entry's path is admitted by canAccess for every role the entry lists |
| Middleware.TablesAgree | src/middleware.ts:29-35 | for the five role names the gate's lookup yields an array equal to the auth library's entry |
| Middleware.DashboardNotExempt | src/middleware.ts:8-19 | no dashboard path is public or a framework path |
| Middleware.PublicPassesWithoutCookie | src/middleware.ts:8-14 | a path starting with a public prefix passes without a cookie |
| Middleware.LoginxIsPublic | src/middleware.ts:8-14 | "/loginx" passes as public, since matching is a plain prefix test |
| Middleware.NonDashboardPasses | src/middleware.ts:16-19 | "/api/auth…", "/_next…", "/favicon.ico" and every path outside "/dashboard" pass whatever the cookie |
| Middleware.MatchedIsDashboard | src/middleware.ts:48-50 | every path the matcher accepts starts with "/dashboard" |
| Middleware.UnmatchedPasses | src/middleware.ts:48-50 | a path outside "/dashboard" and "/dashboard/…" never reaches the middleware and passes; "/dashboardx" passes without a cookie although the function alone would redirect it |
| Middleware.NoCookieRedirectsToLogin | src/middleware.ts:21-22 | a dashboard request without a session cookie redirects to /login |
| Middleware.BadTokenRedirectsToLogin | src/middleware.ts:24-44 | a token that fails verification redirects to /login |
| Middleware.InheritedRoleRedirectsToLogin | src/middleware.ts:37-44 | a verified role naming an inherited object property makes `perms.includes` throw, and the catch redirects to /login |
| Middleware.UnknownRoleRedirectsToDashboard | src/middleware.ts:37-40 | any other verified role not in the table gets no permissions and redirects to /dashboard |
| Middleware.KnownRoleMatchesCanAccess | src/middleware.ts:29-42 | for a known role the gate lets a dashboard request through exactly when canAccess admits it |
| Middleware.DenialRedirectSettles | src/middleware.ts:37-42 | a denial for the role implies a verified role that is no inherited property name; following its redirect with the same cookie passes for every known role, and is denied again for an unknown one |
| PackagingClient.DollarToWordsEdges | src/app/dashboard/packaging/PackagingClient.tsx:105-113 | 0 gives "ZERO", 0 < n < 1 gives "", a negative amount gives undefined, and no amount gives "" |
| PackagingClient.WholePartOnly | src/app/dashboard/packaging/PackagingClient.tsx:106 | two non-zero amounts with the same whole part get the same words |
| PackagingClient.Tokens | src/app/dashboard/packaging/PackagingClient.tsx:107-110 | the words of a positive amount consist of valid number words, HUNDRED and THOUSAND |
| PackagingClient.WordsAreSpokenTokens | src/app/dashboard/packaging/PackagingClient.tsx:107-110 | the words of a positive amount are its tokens, spelled and separated by single spaces |
| PackagingClient.ReadTokens | src/app/dashboard/packaging/PackagingClient.tsx:107-110 | reading the tokens back (units add, HUNDRED multiplies the group, THOUSAND closes it) gives the amount |
| PackagingClient.WordsDenoteAmount | src/app/dashboard/packaging/PackagingClient.tsx:105-110 | for n ≥ 1 the words read back as exactly the whole number of dollars |
| PackagingClient.WordsWellSpaced | src/app/dashboard/packaging/PackagingClient.tsx:105-110 | for a positive amount the words are non-empty, with no leading, trailing or doubled space |
| PackagingClient.TokensExample | src/app/dashboard/packaging/PackagingClient.tsx:107-110 | 1234 is ONE THOUSAND TWO HUNDRED THIRTY FOUR |
| PackagingClient.ListsDisjoint | src/app/dashboard/packaging/PackagingClient.tsx:1204-1205 | no order is in both the ready and the packing list |
| PackagingClient.InvoicedLeavesReady | src/app/dashboard/packaging/PackagingClient.tsx:1184-1204 | after an invoice, the order leaves the ready list and the other ready orders stay in order |
| PackagingClient.InvoicedJoinsPacking | src/app/dashboard/packaging/PackagingClient.tsx:1184-1205 | after an invoice, every order with that id is in the packing list with the new number |
| PackagingClient.OthersUnchanged | src/app/dashboard/packaging/PackagingClient.tsx:1186-1196 | orders with other ids are unchanged |
| PackagingOrders.Round2Bounds | src/app/api/packaging/orders/route.ts:57-100 | rounding to two decimals moves a value down by less than 0.005 or up by at most 0.005 |
| PackagingOrders.Round2Idempotent | src/app/api/packaging/orders/route.ts:57-100 | rounding an already rounded value changes nothing |
| PackagingOrders.LatestPurchase | src/app/api/packaging/orders/route.ts:38-41 | the purchase line taken is the product's line with the highest id |
| PackagingOrders.InrUnitRule | src/app/api/packaging/orders/route.ts:56-57 | the unit price is null exactly when there is no purchase or the latest rate is 0; otherwise it is within half a paisa of rate × 1.15 |
| PackagingOrders.AmountRule | src/app/api/packaging/orders/route.ts:73 | the amount is null exactly when the unit price is null or 0; otherwise it is within half a paisa of unit × quantity |
| PackagingOrders.TinyRateExample | src/app/api/packaging/orders/route.ts:57-73 | a rate of 0.004 gives a unit price of 0 and a null amount |
| PackagingOrders.SumOfMissingAmounts | src/app/api/packaging/orders/route.ts:77 | items without an amount add 0 to the total |
| PackagingOrders.OrderRowDefaults | src/app/api/packaging/orders/route.ts:75-101 | exchange rate 84 when missing or 0, 0 dollar and INR amounts sent as null, USD total equal to the dollar amount, and without an entry: no items, total 0, shipping 0, no mode |
| PackagingOrders.TotalInrRule | src/app/api/packaging/orders/route.ts:77-100 | the INR total is within half a paisa of the sum of the item amounts, null counted as 0 |
| PackagingOrders.ListedIds | src/app/api/packaging/orders/route.ts:14-16 | exactly the PAYMENT_VERIFIED and PACKING orders, highest id first |
| PackagingOrders.PackagingOrderListSpec | src/app/api/packaging/orders/route.ts:9-104 | 403 outside ADMIN, MANAGER and PACKAGING; otherwise one row per listed order, carrying its id and status, highest id first |
| PurchaseSave.UpsertProductsShape | src/app/api/purchase/save/route.ts:114-185 | the loop resolves one id per line, each naming a product; the table grows by exactly the number of new products |
| PurchaseSave.UpsertProductsFailureSticks | src/app/api/purchase/save/route.ts:116-185 | once a line fails, the whole loop fails |
| PurchaseSave.SaveParty | src/app/api/purchase/save/route.ts:66-111 | the party step computes what UpsertParty specifies |
| PurchaseSave.SaveProduct | src/app/api/purchase/save/route.ts:117-184 | one loop turn computes what UpsertProduct specifies |
| PurchaseSave.SaveProducts | src/app/api/purchase/save/route.ts:113-185 | the loop over the lines computes UpsertProducts |
| PurchaseSave.AppendItems | src/app/api/purchase/save/route.ts:197-220 | one purchase item per line is appended, in order |
| PurchaseSave.RunTransaction | src/app/api/purchase/save/route.ts:64-231 | the transaction on working copies computes Transaction |
| PurchaseSave.CheckAndRun | src/app/api/purchase/save/route.ts:51-63 | the role gate, the party-name check and the product-list check, then the transaction, on working copies, compute SaveStep |
| PurchaseSave.SavePurchase | src/app/api/purchase/save/route.ts:50-238 | the handler commits exactly the outcome of SaveStep |
| PurchaseSave.FailureWritesNothing | src/app/api/purchase/save/route.ts:51-237 | 403 outside ADMIN, MANAGER, ACCOUNTS and PACKAGING, 400 for a blank party name then for no products, 500 when a write fails; none writes anything |
| PurchaseSave.PartyByIdOverwritten | src/app/api/purchase/save/route.ts:68-78 | a party with an id is overwritten: trimmed name, and address, GST and DL number as given or null |
| PurchaseSave.MatchedPartyMerged | src/app/api/purchase/save/route.ts:80-92 | a party matched by name ignoring case keeps its name and each old field wherever the new value is empty; no phone or email is added |
| PurchaseSave.NewPartyCreated | src/app/api/purchase/save/route.ts:93-109 | an unmatched party is created, with phone and email rows only for the values given |
| PurchaseSave.MatchedProductMerged | src/app/api/purchase/save/route.ts:137-162 | a line matched to an active product keeps the old composition, manufacturer, HSN and pack when the new one is empty, always overwrites batch and dates, and keeps the old mrp and GST only when the new one is missing |
| PurchaseSave.UnmatchedProductCreated | src/app/api/purchase/save/route.ts:163-180 | an unmatched line creates an active product under the trimmed name, counted as new |
| PurchaseSave.TransactionSucceeds | src/app/api/purchase/save/route.ts:187-230 | a committed transaction appends one bill and one item per line pointing at the resolved products; new and updated counts add up to the number of lines |
| PurchaseSave.SaveSucceeds | src/app/api/purchase/save/route.ts:50-233 | a 200 reply means at least one line and the tables changed as TransactionSucceeds states |
| PurchaseSave.UpsertPartyKeepsContactsValid | src/app/api/purchase/save/route.ts:93-109 | the party step keeps every phone and email pointing at a party |
| PurchaseSave.ItemsValid | src/app/api/purchase/save/route.ts:198-220 | the new items point at the new bill and at existing products |
| PurchaseSave.TransactionKeepsTablesValid | src/app/api/purchase/save/route.ts:64-231 | the transaction keeps every foreign key valid |
| PurchaseSave.SaveKeepsTablesValid | src/app/api/purchase/save/route.ts:50-238 | every save keeps every foreign key valid |
| ClientFormSubmit.SubmitClientForm | src/app/api/client-form-submit/route.ts:26-124 | the handler changes orders and links exactly as the step function says, including the lock that stays when the create fails |
| ClientFormSubmit.RefusalsWriteNothing | src/app/api/client-form-submit/route.ts:26-97 | 400 "Token required", "Link already used", "Link expired" or "Invalid link" under their conditions, and none of these writes anything; a failed create also answers 400 and adds no order, but keeps the lock it has written |
| ClientFormSubmit.SingleLinkConsumed | src/app/api/client-form-submit/route.ts:38-84 | a usable single-use link becomes used at now in every case; when the create succeeds exactly one order without an account is added and recorded on the link, and when it fails the reply is 400 and no order is added |
| ClientFormSubmit.LinkUsedOnce | src/app/api/client-form-submit/route.ts:40-54 | once a link has been locked, whether or not its order was created, submitting the token again at any time is refused as used |
| ClientFormSubmit.SingleNeverMulti | src/app/api/client-form-submit/route.ts:33-90 | a token that names a single-use link never creates an order with an account |
| ClientFormSubmit.MultiLinkReusable | src/app/api/client-form-submit/route.ts:90-124 | an active reusable link changes no link; a successful create adds one order tied to its account and the link works again afterwards, and a failed one writes nothing |
| ClientFormSubmit.SubmissionDefaults | src/app/api/client-form-submit/route.ts:59-119 | both paths default amountPaid to 0 and currency to INR and store the contact fields as given |
| ClientFormSubmit.SingleOrdersAppend | src/app/api/client-form-submit/route.ts:59-76 | appending an order raises only its own link's order count |
| ClientFormSubmit.SubmitKeepsSingleUse | src/app/api/client-form-submit/route.ts:38-85 | every submission, a failed create included, keeps each single-use link at no orders while unused and at most one once used |
| ClientFormSubmit.SubmitKeepsTablesValid | src/app/api/client-form-submit/route.ts:59-121 | a submission keeps every foreign key valid |
| ClientMultiFormSubmit.SubmitMultiForm | src/app/api/client-multi-form-submit/route.ts:25-72 | the handler adds exactly the order the step function says, and nothing when the create fails |
| ClientMultiFormSubmit.MultiRefusals | src/app/api/client-multi-form-submit/route.ts:25-72 | 400 without a token, 400 for a missing or inactive link or an inactive account, and 400 when a usable link's create fails; no failure creates an order, and the reply is a success exactly for a usable link whose order is created |
| ClientMultiFormSubmit.MultiSubmitCreatesOrder | src/app/api/client-multi-form-submit/route.ts:39-66 | a usable link whose order the database accepts creates one order tied to its account with defaults 0 and INR; the reply echoes the account's name and unchanged balance |
| ClientMultiFormSubmit.InactiveAccountAcceptedByFormRoute | src/app/api/client-multi-form-submit/route.ts:35-37 | the generic form route accepts an active link of an inactive account that this route refuses (compare src/app/api/client-form-submit/route.ts:95-97) |
| ClientMultiFormSubmit.MultiSubmitKeepsTablesValid | src/app/api/client-multi-form-submit/route.ts:40-60 | a submission keeps every foreign key valid |
| ClientAccountLinks.BaseUrl | src/app/api/client-account-links/route.ts:26 | the configured URL when non-empty, else "http://localhost:3000" |
| ClientAccountLinks.CreateAccountLink | src/app/api/client-account-links/route.ts:13-67 | the handler changes accounts, ledger and links exactly as the step function says |
| ClientAccountLinks.CreateRefusals | src/app/api/client-account-links/route.ts:16-66 | 400 exactly when the trimmed name is shorter than 2 UTF-16 code units, else when the opening balance is negative; refusals and failed transactions write nothing |
| ClientAccountLinks.AstralNameLongEnough | src/app/api/client-account-links/route.ts:16-20 | a name of one emoji passes the length test |
| ClientAccountLinks.AccountCreated | src/app/api/client-account-links/route.ts:17-49 | the new account is active, under the trimmed name, with balance the opening amount (0 when missing); exactly one active link under the token points at it |
| ClientAccountLinks.OpeningCreditIffPositive | src/app/api/client-account-links/route.ts:36-45 | one CREDIT "Opening balance" row is written exactly when the opening amount is positive |
| ClientAccountLinks.OpeningBalanceInLedger | src/app/api/client-account-links/route.ts:31-45 | the new account's balance equals the credits less debits the ledger holds for it |
| ClientAccountLinks.UrlsOfLink | src/app/api/client-account-links/route.ts:26-60 | the reply's order URL reads back to the token after base + "/client-multi-form/", and its download URL's digits after base + "/api/client-account-links/download/" read back to the account id |
| ClientAccountLinks.OrderUrlParts | src/app/api/client-account-links/route.ts:28 | the order URL starts with base + "/client-multi-form/" and the rest of it is exactly the token |
| ClientAccountLinks.DownloadUrlParts | src/app/api/client-account-links/route.ts:60 | the download URL starts with base + "/api/client-account-links/download/" and the rest is the account id in decimal digits |
| ClientAccountLinks.CreateKeepsTablesValid | src/app/api/client-account-links/route.ts:30-52 | creation keeps every foreign key valid |
| OrderEntryRoute.ItemError | src/app/api/order-entry/route.ts:17-21 | an item's error is none exactly when it has a product, a positive quantity and a selling price |
| OrderEntryRoute.FirstItemError | src/app/api/order-entry/route.ts:16-22 | the reported error belongs to the first failing item, and there is none when all items pass |
| OrderEntryRoute.ValidateItems | src/app/api/order-entry/route.ts:16-22 | the validation loop returns the first failing item's error |
| OrderEntryRoute.EntryItems | src/app/api/order-entry/route.ts:41-58 | one stored item per submitted line, in order, with its product, quantity and price |
| OrderEntryRoute.PostOrderEntry | src/app/api/order-entry/route.ts:5-74 | the handler changes entries and orders exactly as the step function says, failing with 500 on a shipment mode outside the enum |
| OrderEntryRoute.ValidationOrder | src/app/api/order-entry/route.ts:10-22 | orderId, then shipmentMode, then a non-empty item list, then each item, each answering 400; a shipment mode outside the enum then fails with 500; a refused or failed request writes nothing |
| OrderEntryRoute.ItemRules | src/app/api/order-entry/route.ts:17-21 | an item needs a product and a quantity above 0; a selling price of 0 is accepted, a missing one is not |
| OrderEntryRoute.FirstFailingItemReported | src/app/api/order-entry/route.ts:16-22 | the error for a list is its first failing item's, whatever later items hold |
| OrderEntryRoute.EntryReplaced | src/app/api/order-entry/route.ts:33-68 | success needs a shipment mode of the enum, and leaves one entry for the order holding exactly the submitted items, shipping price "0" by default, empty notes as null, and the order SALES_UPDATED |
| OrderEntryRoute.UpsertForgetsPrevious | src/app/api/order-entry/route.ts:33-60 | create and update write the same entry, whatever was there before |
| OrderEntryRoute.ResubmitIdempotent | src/app/api/order-entry/route.ts:33-68 | submitting the same request twice leaves the tables as submitting it once |
| OrderEntryRoute.EntryKeepsTablesValid | src/app/api/order-entry/route.ts:33-68 | success keeps every foreign key valid |
| ProductsRoute.ListProducts | src/app/api/products/route.ts:8-15 | GET lists each active product once, with id, name, manufacturer and mrp, sorted by name ascending |
| ProductsRoute.CreateProduct | src/app/api/products/route.ts:17-45 | the handler changes the product table exactly as the step function says |
| ProductsRoute.CreateRefusals | src/app/api/products/route.ts:22-30 | 400 for a blank name, 409 exactly when some product, active or not, has that trimmed name ignoring case; neither inserts |
| ProductsRoute.ProductCreated | src/app/api/products/route.ts:32-45 | a created product is appended active under the trimmed name; a falsy mrp or GST, 0 included, is stored as null |
| ProductsRoute.CreateKeepsNamesDistinct | src/app/api/products/route.ts:25-34 | no two product names are equal ignoring case, before and after a POST |
| ProductsRoute.CreatedProductListed | src/app/api/products/route.ts:8-45 | the product a POST replies with is in the next GET's list |
| PartiesRoute.PartiesByName | src/app/api/parties/route.ts:11-13 | each active party once, sorted by name ascending |
| PartiesRoute.ListParties | src/app/api/parties/route.ts:8-20 | 401 exactly without a session, otherwise the active parties by name |
| PartiesRoute.CreateParty | src/app/api/parties/route.ts:23-44 | the handler changes parties, phones and emails exactly as the step function says |
| PartiesRoute.CreateRefusals | src/app/api/parties/route.ts:24-29 | 403 outside ADMIN and MANAGER, then 400 for a blank name; neither writes |
| PartiesRoute.PartyCreated | src/app/api/parties/route.ts:31-43 | an active party under the trimmed name, empty fields as null, and a phone and an email row exactly for the values given |
| PartiesRoute.CreateKeepsContactsValid | src/app/api/parties/route.ts:38-39 | every phone and email still points at a party |
| PartiesRoute.CreatedPartyListed | src/app/api/parties/route.ts:8-43 | the new party and every party listed before are in the next GET's list |
| UsersRoute.ListUsers | src/app/api/users/route.ts:8-17 | 403 for anyone but an ADMIN; otherwise every user, newest first, without passwords |
| UsersRoute.FindClash | src/app/api/users/route.ts:31-43 | the search reports a clash exactly when a stored user has the username or the email |
| UsersRoute.CreateUser | src/app/api/users/route.ts:20-46 | the handler changes the user table exactly as the step function says |
| UsersRoute.CreateRefusals | src/app/api/users/route.ts:21-43 | 403 for non-admins, 400 for a missing field, 409 when the normalised username or email is taken; none writes |
| UsersRoute.UserCreated | src/app/api/users/route.ts:30-41 | a created user is active with normalised username and email, trimmed name, the given role and the password's hash; the reply has no password |
| UsersRoute.StoredNamesNormalised | src/app/api/users/route.ts:33-34 | stored usernames and emails are unchanged by normalising again |
| UsersRoute.CreateKeepsLoginsUnique | src/app/api/users/route.ts:31-43 | usernames stay unique and emails stay unique |
| UsersRoute.BlankUsernameStoredEmpty | src/app/api/users/route.ts:27-33 | a username of white space alone passes the check and is stored as "" |
| LoginRoute.LoginRefusals | src/app/api/auth/login/route.ts:11-20 | 400 without username or password; one and the same 401 for an unknown user, an inactive user and a wrong password |
| LoginRoute.LoginSucceeds | src/app/api/auth/login/route.ts:14-29 | success exactly for an active user under the normalised username whose password matches; the session carries id, username, name and role and lasts 28800 seconds |
| LoginRoute.LoginAfterCreate | src/app/api/auth/login/route.ts:14-24 | a user created by the users route can log in with the username in any letter case and with surrounding white space |
| PurchaseBillClient.MatchedLinesCarryIds | src/app/dashboard/purchase/PurchaseBillClient.tsx:255-260 | a scanned line takes the id of the first product whose name equals its own ignoring case, and is otherwise unchanged |
| PurchaseBillClient.NoDataNoChange | src/app/dashboard/purchase/PurchaseBillClient.tsx:269-301 | every updater does nothing without scan data |
| PurchaseBillClient.SetProductTouchesOneField | src/app/dashboard/purchase/PurchaseBillClient.tsx:282-294 | only field key of line idx changes: numeric keys take Number(val) or null, text keys val or null |
| PurchaseBillClient.SetBillAndPartyFields | src/app/dashboard/purchase/PurchaseBillClient.tsx:268-280 | only the named field changes: the total to a number or null, every other field to the text or null |
| PurchaseBillClient.WithoutIndexSlices | src/app/dashboard/purchase/PurchaseBillClient.tsx:296-298 | removing a valid index drops exactly that line and keeps the rest in order; another index changes nothing |
| PurchaseBillClient.RemoveProductDropsOne | src/app/dashboard/purchase/PurchaseBillClient.tsx:296-298 | removing a valid index shortens the list by one |
| PurchaseBillClient.BlankLineFields | src/app/dashboard/purchase/PurchaseBillClient.tsx:303-309 | the blank line has an empty name, quantity 1, rate 0 and every other field null |
| PurchaseBillClient.AddBlankCountsNew | src/app/dashboard/purchase/PurchaseBillClient.tsx:300-311 | adding a line appends the blank line, which counts as one more new product |
| PurchaseBillClient.CountsCoverLines | src/app/dashboard/purchase/PurchaseBillClient.tsx:458 | the existing and new counts add up to the number of lines |
| LedgerClient.SelectAccountGuard | src/app/dashboard/ledger/LedgerClient.tsx:257-266 | selecting the selected account changes nothing; another one replaces the orders and the account |
| LedgerClient.HandleSavedMergesById | src/app/dashboard/ledger/LedgerClient.tsx:268-270 | the saved fields are merged into the orders with that id; other orders, the length and the order are kept |
| LedgerClient.CountsSplitOrders | src/app/dashboard/ledger/LedgerClient.tsx:272-273 | filled plus unfilled is the number of orders, and unfilled counts the orders without payment |
| LedgerClient.FilledMeansPayment | src/app/dashboard/ledger/LedgerClient.tsx:272-273 | an order is filled exactly when one of its four payment fields is a non-empty string or a non-zero number |
| LedgerClient.SaveSendsNullForEmpty | src/app/dashboard/ledger/LedgerClient.tsx:50-56 | the save sends null exactly for the empty form fields and the rest as typed |
| LedgerClient.CancelRestoresForm | src/app/dashboard/ledger/LedgerClient.tsx:65-74 | cancel refills the form from the order, closes it and clears the error, whatever was typed |
| LedgerClient.StartSave | src/app/dashboard/ledger/LedgerClient.tsx:46 | a save starts by marking the row saving and clearing its error |
| LedgerClient.FinishSaveOutcomes | src/app/dashboard/ledger/LedgerClient.tsx:58-62 | a refused save keeps the orders and shows an error with the row open; a successful one closes it with no error |
| LedgerClient.SaveClearsOldError | src/app/dashboard/ledger/LedgerClient.tsx:45-62 | over a whole save, a success leaves no error even after an earlier refusal, and a refusal shows its own error or "Save failed" |
| SetupClient.HandleAddedCounts | src/app/dashboard/setup/SetupClient.tsx:140-168 | the new user goes first with the others in order, and each counter grows by exactly that user |
| SetupClient.ChangeRoleTouchesOne | src/app/dashboard/setup/SetupClient.tsx:142-151 | on success only the role of the user with that id changes, to the reply's role; on failure nothing changes |
| SetupClient.ToggleActiveTouchesOne | src/app/dashboard/setup/SetupClient.tsx:153-162 | the request asks for the negated flag; on success only that user's flag changes, to the reply's |
| SetupClient.RolesCoverUsers | src/app/dashboard/setup/SetupClient.tsx:164-168 | the five per-role counts add up to the number of users |
| SetupClient.StatsAddUp | src/app/dashboard/setup/SetupClient.tsx:164-168 | active is at most total, there is a counter for each of the five roles, and they add up to total |
| SetupClient.CheckAddUserRule | src/app/dashboard/setup/SetupClient.tsx:31-43 | the form is refused exactly when name, username, email or password is empty, and is otherwise sent as it is |
| SetupClient.NoSelfChanges | src/app/dashboard/setup/SetupClient.tsx:230-246 | the signed-in user's own row offers no role change and no toggle; every other row offers both |
| ProductMasterClient.EmptySearchKeepsAll | src/app/dashboard/product-master/ProductMasterClient.tsx:127-129 | an empty search shows the list unchanged |
| ProductMasterClient.FilteredIsFilter | src/app/dashboard/product-master/ProductMasterClient.tsx:127-135 | the shown list is always the products matching the lower-cased search, in order |
| ProductMasterClient.ShownIffMatches | src/app/dashboard/product-master/ProductMasterClient.tsx:130-134 | a product is shown exactly when its name, manufacturer or HSN contains the search, ignoring case |
| ProductMasterClient.DeleteRemovesId | src/app/dashboard/product-master/ProductMasterClient.tsx:142-147 | unconfirmed does nothing; confirmed removes every product with that id and keeps all others |
| ProductMasterClient.AddedShown | src/app/dashboard/product-master/ProductMasterClient.tsx:137-140 | the added product goes first and is shown under any search it matches |
| ProductMasterClient.AddFormBody | src/app/dashboard/product-master/ProductMasterClient.tsx:31-43 | a white-space name is refused; otherwise the trimmed name is sent, with null for each empty text, mrp and GST field |
| ProductMasterClient.SentNameAccepted | src/app/dashboard/product-master/ProductMasterClient.tsx:32-43 | what the form sends is never refused by the route for its name, and is stored under the same trimmed name (see src/app/api/products/route.ts:22-34) |
| PartyMasterClient.AnyMatchesExists | src/app/dashboard/party/PartyMasterClient.tsx:86 | `.some` holds exactly when one of the values matches |
| PartyMasterClient.SearchValuesLayout | src/app/dashboard/party/PartyMasterClient.tsx:83-84 | the values searched are the name, GST number, drug licence and address, then every phone, then every email, in that order |
| PartyMasterClient.SearchValuesMatch | src/app/dashboard/party/PartyMasterClient.tsx:83-87 | the search tests the name, GST, DL, address and every phone and email, skipping null fields |
| PartyMasterClient.ShownIffMatches | src/app/dashboard/party/PartyMasterClient.tsx:83-87 | a party is shown exactly when one of those values contains the search, ignoring case |
| PartyMasterClient.EmptySearchShowsAll | src/app/dashboard/party/PartyMasterClient.tsx:83-87 | an empty search shows every party, in order |
| PartyMasterClient.OpenAddResets | src/app/dashboard/party/PartyMasterClient.tsx:46-67 | opening the add form empties it and forgets the edited party; saving it untouched is refused, and once a non-blank name is typed the save is a POST to the parties route |
| PartyMasterClient.OpenEditFills | src/app/dashboard/party/PartyMasterClient.tsx:50-59 | the edit form takes the party's fields, null as "", and its first phone and email or "" |
| PartyMasterClient.SaveGuardAndTarget | src/app/dashboard/party/PartyMasterClient.tsx:63-70 | a white-space name is refused with a message and nothing sent; otherwise the form is PATCHed to /api/parties/{id} when editing, else POSTed to /api/parties |
| Common.RoleNameRoundTrip | src/lib/auth.ts:4 | every role's name reads back as that role |
| Strings.TrimEmptyIffBlank | src/app/api/products/route.ts:22 | a string trims to "" exactly when it is all white space, in ECMAScript's sense: WhiteSpace, every Zs separator included, and LineTerminator |
| Strings.IdeographicSpaceBlank | src/app/api/parties/route.ts:29 | a name of U+3000 alone is blank |
| Strings.Utf16Length | src/app/api/client-account-links/route.ts:19 | `length` counts UTF-16 code units: between one and two per character, and one per character when all are in the Basic Multilingual Plane |
| Strings.AstralLength | src/app/api/client-account-links/route.ts:19 | a character outside the Basic Multilingual Plane has length 2 |
| Strings.TrimIdempotent | src/app/api/products/route.ts:22-34 | trimming twice is trimming once |
| Strings.PadZerosRoundTrip | src/app/api/packaging/invoice/route.ts:58 | the padded digits of a counter read back as the counter |
| Sorting.SortBy | src/app/api/products/route.ts:11 | the sorted list is a permutation of its input, in ascending key order |
| Sorting.TiesReversed | src/app/api/products/route.ts:11 | two rows with equal names come out in reverse table order, an order the database leaves unspecified |

## Left out

- Rendering. The JSX markup, styles, modals and loading flags are not modelled; only the state the pages compute from is.
- Printing. The packaging page's printed documents (invoice, packing list and the rest) are not modelled, except the amount in words.
- Dates. Date and locale formatting (`toLocaleDateString`, `toISOString`) are left out. Times are opaque integers supplied by the caller.
- Time. The clock, and the month and year `getFinancialYear` reads from it, are parameters.
- Foreign calls. JWT signing and verification, bcrypt's hash and compare, and `crypto.randomBytes` are parameters. Their cryptography is not modelled.
- Numbers. IEEE-754 floating point is not modelled. Money and rates are exact reals, so `Math.round(x * 100) / 100` is exact rounding half up. Prisma Decimal columns are treated as JavaScript numbers.
- Concurrency. Concurrent requests and transaction isolation are not modelled; each request runs alone. This hides two races in the source: the check, then update, of the invoice route, and the gap between reading and locking a single-use link.
- Error messages. A thrown database error is modelled as one fixed message per route (for example the ORM's "record not found" text in the purchase save). The source replies with whatever message was thrown.
- Ordering. The parties and products lists sort by comparing character codes. The database's own collation is not modelled.
- Unique-token clash. The account-link route's random token clashing with an existing one is modelled as a failed transaction. Its likelihood is not modelled.
- OrderEntryRoute.EntryStep: replies with the order id rather than a separately generated entry id, since entries are keyed by their order.
- Fetch sequences. The purchase page's `scan` and `save`, the ledger page's loading and the party page's `load` and `del` are sequences of fetches. They are not modelled; their results enter as parameters (the scanned lines, the matched products, the reply of a save).
- Other files. The scan route, the Excel and Google Sheets helpers, the download route, and the per-id routes (`/api/users/{id}`, `/api/products/{id}`, `/api/parties/{id}`, `/api/orders/{id}/payment`) are not part of this model. The pages' calls to them enter as replies.
- Strings.ToLower: folds only the ASCII letters A–Z. JavaScript's `toLowerCase` and the database's `mode: "insensitive"` fold every cased Unicode letter, and some letters to more than one character. Full Unicode case mapping is not modelled. Every contract below that compares names "ignoring case" therefore means ignoring ASCII case. Names that differ only in a non-ASCII letter's case are distinct in the model, but equal in the source.
- Strings.EqualsIgnoreCase: ASCII case only, for the reason given for Strings.ToLower.
- PurchaseSave.MatchedPartyMerged: the party name match ignores ASCII case only (see Strings.ToLower).
- PurchaseSave.MatchedProductMerged: the product name match ignores ASCII case only (see Strings.ToLower).
- PurchaseSave.UnmatchedProductCreated: a line whose name differs from a stored product only in a non-ASCII letter's case creates a product here, where the source merges it (see Strings.ToLower).
- ProductsRoute.CreateRefusals: the 409 name clash ignores ASCII case only (see Strings.ToLower).
- ProductsRoute.CreateKeepsNamesDistinct: names stay distinct ignoring ASCII case, not under the database's full case-insensitivity (see Strings.ToLower).
- UsersRoute.CreateRefusals: the clash test compares usernames and emails lower-cased in ASCII only (see Strings.ToLower).
- UsersRoute.UserCreated: the stored username and email are lower-cased in ASCII only (see Strings.ToLower).
- LoginRoute.LoginSucceeds: the username lookup lower-cases in ASCII only (see Strings.ToLower).
- LoginRoute.LoginAfterCreate: "in any letter case" means any ASCII letter case (see Strings.ToLower).
- PurchaseBillClient.MatchedLinesCarryIds: the match ignores ASCII case only (see Strings.ToLower).
- ProductMasterClient.FilteredIsFilter: the search and the fields are lower-cased in ASCII only (see Strings.ToLower).
- ProductMasterClient.ShownIffMatches: "ignoring case" means ignoring ASCII case (see Strings.ToLower).
- PartyMasterClient.ShownIffMatches: "ignoring case" means ignoring ASCII case (see Strings.ToLower).
- Db: ids are natural numbers handed out in creation order, a row's position in its table. The ORM's ids are generated strings. How `orderBy: { id: "desc" }` orders those strings, and how they are spelled in a URL, is not modelled. The digit lemmas below are facts about this encoding.
- PackagingOrders.LatestPurchase: "highest id" is the highest creation position. The source orders the ORM's string ids, which is not modelled (see Db).
- PackagingOrders.ListedIds: "highest id first" is by creation position, not by the ORM's string ids (see Db).
- PackagingOrders.PackagingOrderListSpec: rows come highest id first by creation position, not by the ORM's string ids (see Db).
- ClientAccountLinks.UrlsOfLink: the download URL carries the account id's decimal digits. In the source it carries the ORM's string id (see Db).
- ClientAccountLinks.DownloadUrlParts: "the account id in decimal digits" describes the model's id encoding, not the ORM's string id (see Db).
- PartyMasterClient.SaveGuardAndTarget: the PATCH URL carries the party id's decimal digits. In the source it carries the ORM's string id (see Db).
- First match. `findFirst` without `orderBy` (the purchase save's party and product matches, and the products route's name clash) is modelled as the first matching row in table order. In the source, which row wins is unspecified.
- ClientFormSubmit.SubmitClientForm: a failure of the last write, which records the order on the link after the order was created, is not modelled. The model's only failed write is the order create, as the `created` parameter.
- OrderEntryRoute.EntryStep: the `ShipmentMode` enum is taken to be EMS, ITPS, RMS and DHL, the values the order-entry form offers. The database schema that declares it is not part of this model.
- Middleware.Gate: the matcher is modelled as accepting exactly "/dashboard" and the paths under "/dashboard/". The framework's own path normalisation (trailing slashes, locales, encoded characters) is not modelled.
