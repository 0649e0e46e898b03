# multiBusiness POS core in Dafny

This project models the business core of a multi-tenant point-of-sale web application (Next.js and
Prisma) and proves properties of the model. Each tenant is a business with its own slug, plan and
subscription. Its users sell products from a cart, cancel sales and take refunds that put the stock
back. The tenant pays for a plan through a MercadoPago checkout, and a payment webhook activates
the plan.

The modules follow the source files:

- `sales_actions.dfy` (`SalesActions`): the `POST /api/sales-actions` endpoint.
  - A `Store` class holds the stock, sale and refund tables.
  - `Store.Post` is proved equal to the pure `Handle`. Every property of cancel and refund is stated on `Handle`.
  - The stock loop is a method (`ApplyIncrements`) proved against the fold `Restock`.
  - The tenant is the `tenantId` named in the request body; the session is only checked to exist.
  - Over any sequence of requests to this endpoint, a sale's stock is put back at most once. A sale that another route marked REFUNDED is still accepted by cancel, which restocks it again (`CancelRestocksRefundedSale`).
- `sale_form.dfy` (`SaleForm`): the new-sale form.
  - A `CartForm` class holds the cart and the search box, and its methods keep the cart invariant: one line per product, and every subtotal equals quantity times unit price.
  - The pure functions `AddProduct`, `SetQuantity` and `RemoveLines` specify the class methods.
  - The module also covers the total, the search filter and the submit checks.
- `product_table.dfy` (`ProductTable`): the product list.
  - The sorted category list.
  - The search and category filter.
  - The result counter and the stock badge.
- `register_api.dfy` (`RegisterApi`): `POST /api/register`.
  - The tenant slug.
  - The account store update for a new tenant, its first user and its 14-day trial subscription.
- `register_page.dfy` (`RegisterPage`): the registration form.
  - The field updates and the client-side password checks.
  - The body it posts, and the submit handler's state changes.
- `checkout.dfy` (`Checkout`): `POST /api/checkout`.
  - The validation chain and the preference sent to MercadoPago.
  - The error mapping and the subscription upsert.
- `webhook.dfy` (`MercadoPagoWebhook`): `POST /api/webhooks/mercadopago`.
- `plans.dfy` (`Plans`): the plan enum and the two `toPlanType` parsers.
- `pricing.dfy` (`Pricing`): the `ARGENTINA_PRICING` table.
- `accounts.dfy` (`Accounts`): the tenant, user and subscription tables shared by the routes, as the `AccountStore` class with its invariant.
- `subscription_gate.dfy` (`SubscriptionGate`): `requireActiveSubscription`.
- `route_guard.dfy` (`RouteGuard`): the Next.js `middleware`.
- `sidebar.dfy` (`SideBar`): the dashboard navigation links and which one is highlighted.
- `text.dfy`, `seqs.dfy`, `wrappers.dfy`: the string and array built-ins the core uses, and `Option`.

Conventions:

- Money is an integer: cents in the cart, whole pesos in the pricing table.
- Instants are milliseconds since the epoch (`now`).
- A request field that is missing or empty is the empty string. The checkout distinguishes a
  non-string JSON value (`Field.NonString`).
- Whatever the database, the clock or the payment provider would supply is a parameter of the
  operation: new ids, `Date.now()`, the SDK's answer, the payment record and the password hash.

## Model

| member | source | states |
|---|---|---|
| SalesActions.RestockAdds | src/app/api/sales-actions/route.ts:42-47 | restocking succeeds iff every sold product has a stock row; then each product gains exactly the units sold of it |
| SalesActions.ApplyIncrements | src/app/api/sales-actions/route.ts:88-93 | the per-item increment loop yields the same table as the all-or-nothing fold `Restock` |
| SalesActions.CopyItems | src/app/api/sales-actions/route.ts:78-83 | the refund has one line per sale line, with the same product, quantity, unit price and subtotal |
| SalesActions.FindSale | src/app/api/sales-actions/route.ts:21-24 | a sale is found iff it exists under that id and belongs to the tenantId named in the request body |
| SalesActions.Handle | src/app/api/sales-actions/route.ts:6-119 | every failure leaves all tables unchanged; no sale or product row is created or deleted; only the named sale can change |
| SalesActions.Store.Post | src/app/api/sales-actions/route.ts:6-119 | the new tables and the response are exactly those of `Handle` on the old tables |
| SalesActions.MissingFieldRejected | src/app/api/sales-actions/route.ts:16-18 | a request missing action, saleId or tenantId gets 400 "Datos faltantes" and writes nothing |
| SalesActions.ForeignSaleNotFound | src/app/api/sales-actions/route.ts:21-28 | an unknown sale, or a sale of another tenant, gets 404 and writes nothing |
| SalesActions.CancelTwiceRejected | src/app/api/sales-actions/route.ts:31-34 | cancelling a CANCELLED sale gets 400 and writes nothing |
| SalesActions.CancelRestocks | src/app/api/sales-actions/route.ts:31-55 | any sale that is not CANCELLED can be cancelled; this succeeds iff all its products exist; then the sale is CANCELLED, each product gains the units sold, other products and the refunds are unchanged; otherwise 500 and nothing written |
| SalesActions.RefundNeedsCompleted | src/app/api/sales-actions/route.ts:59-62 | only a COMPLETED sale can be refunded; otherwise 400 and nothing written |
| SalesActions.RefundRestocksAndRecords | src/app/api/sales-actions/route.ts:64-108 | a refund appends one COMPLETED refund with the sale's total and items, restocks every product, and leaves the sale CANCELLED |
| SalesActions.RefundRollsBack | src/app/api/sales-actions/route.ts:69-102 | a refund of a COMPLETED sale naming a product with no stock row is rolled back: 500, no refund record, no stock or status change |
| SalesActions.UnknownActionRejected | src/app/api/sales-actions/route.ts:111 | an action other than cancel or refund fails and writes nothing |
| SalesActions.UnknownActionOnFoundSale | src/app/api/sales-actions/route.ts:111 | an unknown action on a sale that was found answers 400 "Acción no válida" and writes nothing |
| SalesActions.StepCancels | src/app/api/sales-actions/route.ts:30-109 | a request restocks a sale only if it was not CANCELLED, and the sale is CANCELLED afterwards for good |
| SalesActions.RestockAtMostOnce | src/app/api/sales-actions/route.ts:30-109 | over any sequence of requests to this endpoint a sale's units go back to stock at most once, and never for a sale already CANCELLED |
| SalesActions.CancelRestocksRefundedSale | src/app/api/sales-actions/route.ts:31-55 | a cancel of a REFUNDED sale whose products all exist puts its units back once more |
| SalesActions.Store.constructor | src/app/api/sales-actions/route.ts:21-24 | the store holds the given stock and sale tables and no refunds |
| SaleForm.Find | src/app/components/sales/SaleForm.tsx:125 | the index returned is that of the first line of the product, and None means there is no such line |
| SaleForm.AddProductEffect | src/app/components/sales/SaleForm.tsx:124-141 | adding a product already in the cart raises only its line by one unit; a new product is appended as one unit at its price |
| SaleForm.SetQuantityEffect | src/app/components/sales/SaleForm.tsx:143-158 | a quantity of 0 or less removes the product's line; otherwise only that line changes, to the new quantity and subtotal |
| SaleForm.RemoveLinesEffect | src/app/components/sales/SaleForm.tsx:160-162 | removing deletes exactly the product's lines and keeps the others in order |
| SaleForm.SubsequenceKeepsInvariant | src/app/components/sales/SaleForm.tsx:160-162 | dropping lines keeps ids unique and subtotals equal to quantity times price |
| SaleForm.RemoveKeepsInvariant | src/app/components/sales/SaleForm.tsx:160-162 | `removeItem` keeps the cart invariant |
| SaleForm.SetQuantityKeepsInvariant | src/app/components/sales/SaleForm.tsx:143-158 | `updateItemQuantity` keeps the cart invariant |
| SaleForm.AddKeepsInvariant | src/app/components/sales/SaleForm.tsx:124-141 | `addItem` keeps the cart invariant |
| SaleForm.TotalRemoveLines | src/app/components/sales/SaleForm.tsx:160-166 | after removal the total drops by the product's subtotals |
| SaleForm.TotalRequantify | src/app/components/sales/SaleForm.tsx:149-166 | after requantifying, the total swaps the product's old subtotals for the new ones |
| SaleForm.SumsOverUniqueLine | src/app/components/sales/SaleForm.tsx:125 | with unique ids the product's subtotals are those of its single line |
| SaleForm.TotalAppend | src/app/components/sales/SaleForm.tsx:138 | appending a line adds its subtotal to the total |
| SaleForm.TotalAfterAdd | src/app/components/sales/SaleForm.tsx:124-166 | adding a product raises the total by exactly one unit price |
| SaleForm.TotalAfterSetQuantity | src/app/components/sales/SaleForm.tsx:143-166 | a quantity change replaces the line's subtotal in the total by quantity times price, or removes it |
| SaleForm.SearchResults | src/app/components/sales/SaleForm.tsx:168-179 | a blank search term shows nothing; the results are drawn from the loaded products |
| SaleForm.SearchResultsMatch | src/app/components/sales/SaleForm.tsx:168-179 | a blank term shows nothing; otherwise a product is shown iff its lower-cased name or bar code contains the trimmed lower-cased term |
| SaleForm.Submit | src/app/components/sales/SaleForm.tsx:181-209 | refused iff the cart is empty or OTHER has a blank note; otherwise the payload has every line, the cart total, the method, the selected customer's id (null when none is selected), and the trimmed note only for OTHER |
| SaleForm.TotalIsLineValue | src/app/components/sales/SaleForm.tsx:164-166 | in a cart that keeps the invariant, the submitted total is the sum of quantity times unit price |
| SaleForm.CartForm.constructor | src/app/components/sales/SaleForm.tsx:60-64 | the form starts with an empty cart, which satisfies the invariant |
| SaleForm.CartForm.RemoveItem | src/app/components/sales/SaleForm.tsx:160-162 | the cart becomes `RemoveLines` of the old cart and keeps the invariant |
| SaleForm.CartForm.UpdateItemQuantity | src/app/components/sales/SaleForm.tsx:143-158 | the cart becomes `SetQuantity` of the old cart and keeps the invariant |
| SaleForm.CartForm.AddItem | src/app/components/sales/SaleForm.tsx:124-141 | the cart becomes `AddProduct` of the old cart, keeps the invariant, and the search box is cleared |
| ProductTable.LessTransitive | src/app/components/products/ProductTable.tsx:43 | the string order used by `sort()` is transitive |
| ProductTable.LessTotal | src/app/components/products/ProductTable.tsx:43 | any two distinct strings are ordered one way or the other |
| ProductTable.LessIrreflexive | src/app/components/products/ProductTable.tsx:43 | no string sorts before itself |
| ProductTable.Insert | src/app/components/products/ProductTable.tsx:43 | inserting into a sorted list without repeats keeps it so and adds exactly the new element |
| ProductTable.Categories | src/app/components/products/ProductTable.tsx:43 | the category list is sorted without repeats and holds exactly the categories of the products |
| ProductTable.FilteredProducts | src/app/components/products/ProductTable.tsx:46-55 | every product shown is loaded and matches both the search and the category filter; with neither, all are shown |
| ProductTable.FilteredProductsSpec | src/app/components/products/ProductTable.tsx:46-55 | the shown list keeps the products' order, and a product is shown iff it matches the search on name, description, bar code or SKU and the category filter |
| ProductTable.NoFilterShowsAll | src/app/components/products/ProductTable.tsx:46-55 | with no search and no category every product is shown |
| ProductTable.ResultCounter | src/app/components/products/ProductTable.tsx:238-239 | the counter shows how many products are listed out of how many are loaded, and the first never exceeds the second |
| ProductTable.StockBadge | src/app/components/products/ProductTable.tsx:176-182 | green iff more than 10 units, yellow iff 1 to 10, red iff none or fewer |
| RegisterApi.Dashify | src/app/api/register/route.ts:32 | replacing whitespace runs by `-` leaves no whitespace, never lengthens, and adds no upper case |
| RegisterApi.Slug | src/app/api/register/route.ts:32 | a slug has no whitespace and no upper-case letter |
| RegisterApi.DashifyNoSpace | src/app/api/register/route.ts:32 | a string without whitespace is left unchanged |
| RegisterApi.SlugIdempotent | src/app/api/register/route.ts:32 | slugging a slug gives it back; a name without whitespace is only lower-cased |
| RegisterApi.Post | src/app/api/register/route.ts:6-105 | 400 for a missing field, then for a known e-mail, then for a taken slug, writing nothing; otherwise one new ACTIVE TRIAL tenant whose trial ends 14 days from now, its user with the hashed password, and an ACTIVE TRIAL subscription for the same 14 days; the store invariant holds |
| RegisterPage.With | src/app/register/page.tsx:32-37 | a change sets the named field and leaves the other five as they were |
| RegisterPage.ClientError | src/app/register/page.tsx:45-55 | the form is accepted iff the passwords match and have at least 6 characters; a mismatch is reported before a short password |
| RegisterPage.BodyIgnoresConfirmation | src/app/register/page.tsx:63-69 | the confirmation field never reaches the server |
| RegisterPage.SentPasswordIsLongEnough | src/app/register/page.tsx:45-69 | every posted body has a password of at least 6 characters, so the server's field check can fail only on the other four fields |
| RegisterPage.FailureMessage | src/app/register/page.tsx:74-82 | a failed request shows the server's error, or "Error en el registro" when there is none, or a thrown error's message |
| RegisterPage.RegisterForm.constructor | src/app/register/page.tsx:20-29 | the form starts with six empty fields, no error and not loading |
| RegisterPage.RegisterForm.HandleChange | src/app/register/page.tsx:32-37 | the form becomes `With` of the old form; error and loading are untouched |
| RegisterPage.RegisterForm.HandleSubmit | src/app/register/page.tsx:39-86 | a failed check shows its message and sends nothing; otherwise the five-field body is sent; success redirects to login with no error, and failure shows the failure message; loading is off on every exit and the form is kept |
| Plans.ToPlanType | src/app/api/checkout/route.ts:43-56 | parses exactly the four plan names, and the plan returned has the given name |
| Plans.IndexIn | src/app/api/webhooks/mercadopago/route.ts:20-23 | `includes` finds the position of the name, and reports none iff the name is absent |
| Plans.ToPlanTypeByList | src/app/api/webhooks/mercadopago/route.ts:19-27 | accepts exactly the names in `validPlanTypes`, and the plan returned has the given name |
| Plans.ParsersAgree | src/app/api/webhooks/mercadopago/route.ts:19-43 | the list-based and switch-based parsers agree on every input and invert the plan's name |
| Pricing.ArgentinaPricing | src/lib/pricing.ts:1-44 | only BASIC, PROFESSIONAL and ENTERPRISE are offered, not TRIAL; prices strictly increase; only PROFESSIONAL is recommended; each id is its key in lower case; ENTERPRISE is unlimited and the others' limits increase |
| Pricing.TableKeysArePaidPlans | src/lib/pricing.ts:1-44 | every plan in the table parses, as a plan other than TRIAL |
| Checkout.CaughtError | src/app/api/checkout/route.ts:173-188 | an error with status 400 answers 400; any other error answers 500 |
| Checkout.BuildPreference | src/app/api/checkout/route.ts:106-129 | one ARS item for one unit at the plan's price; back URLs under the tenant slug; metadata naming the tenant, the plan and the subscription kind |
| Checkout.Upserted | src/app/api/checkout/route.ts:150-167 | the subscription is PENDING on the chosen plan and price with the preference id; an existing row keeps its period, and a new row gets a 30-day period from now |
| Checkout.CheckoutLink | src/app/api/checkout/route.ts:148 | the production link when it is non-empty, otherwise the sandbox link; a usable link comes back iff either link is non-empty |
| Checkout.CreatePreference | src/app/api/checkout/route.ts:131-171 | the built preference is sent; an SDK error maps through the catch; on success the checkout link is returned and the tenant's subscription is upserted, and nothing else changes |
| Checkout.Post | src/app/api/checkout/route.ts:58-190 | 400 without tenantId, then 400 without planId, then 500 "Error de configuración del servidor" without a base URL, sending nothing, then 404 for an unknown slug, then 400 for a plan not in the table; only after all of these is the preference sent and the subscription upserted; a request that passes all of them always sends the preference, and answers with the checkout link when the SDK creates it; every failure leaves the subscriptions unchanged |
| Checkout.CheckoutFor | src/app/api/checkout/route.ts:62-171 | 404 for an unknown slug, then 400 for a plan not in the table, sending nothing; a known slug with a listed plan always sends the preference, and answers with the checkout link and upserts when the SDK creates it, or maps the SDK error through the catch |
| Checkout.CheckedOutPlanIsPaid | src/app/api/checkout/route.ts:97-104 | a plan that passed the table check never makes `toPlanType` throw and is never TRIAL |
| Accounts.AccountStore.constructor | src/app/api/register/route.ts:20-42 | the store starts empty and satisfies the invariant the routes rely on: rows under their own keys, unique slugs and e-mails, users and subscriptions of existing tenants |
| SubscriptionGate.RequireActiveSubscription | src/middleware/requireSubscription.ts:5-43 | the request is let through iff the token names a known tenant whose trial has not expired and which is not suspended; then it gets that tenant |
| SubscriptionGate.DenialOrder | src/middleware/requireSubscription.ts:8-35 | 401 without a tenant, then 404, then an expired trial, which wins over a suspension |
| SubscriptionGate.TrialBoundary | src/middleware/requireSubscription.ts:22 | a trial ending exactly now is still valid and expires from the next millisecond |
| MercadoPagoWebhook.Post | src/app/api/webhooks/mercadopago/route.ts:45-106 | 400 for a malformed body, then for a payment without an id, then for missing metadata; a payment that is not approved is acknowledged with no write; an approved one with complete metadata, a known plan and an existing tenant and subscription is always acknowledged and sets the tenant's plan and ACTIVE, and the subscription to ACTIVE with the payment id and a 30-day period; an unknown plan, or a missing tenant or subscription, gives 500 "Webhook error"; every failure writes nothing, and the tables change only on activation |
| MercadoPagoWebhook.Activate | src/app/api/webhooks/mercadopago/route.ts:80-104 | an unknown plan or a missing tenant or subscription gives 500 with no write; otherwise the tenant gets the plan and ACTIVE, and its subscription ACTIVE with the payment id and a 30-day period from now |
| MercadoPagoWebhook.UnknownPlanFails | src/app/api/webhooks/mercadopago/route.ts:30-43 | a plan name outside the four makes both parsers fail |
| SideBar.Href | src/app/components/dashboard/SideBar.tsx:54 | a link template starting with `/[tenant]` becomes `/` + tenant + the rest of the template |
| SideBar.IsActive | src/app/components/dashboard/SideBar.tsx:55-56 | a highlighted link is a prefix of the current path; a link that is a proper prefix of it is highlighted iff it is not the tenant's home `/<tenant>` |
| RouteGuard.Middleware | src/middleware.ts:5-29 | redirect to /login iff a protected path is visited without a token; redirect to /dashboard iff a login or register page is visited with one; otherwise pass |
| RouteGuard.PatternAbsent | src/middleware.ts:10-13 | the `/:path*` replacement leaves both protected entries unchanged |
| RouteGuard.ProtectedMeansLiteralPrefix | src/middleware.ts:10-13 | a path is protected iff it starts literally with `/dashboard` or `/:tenant` |
| RouteGuard.ProtectedSecondChar | src/middleware.ts:10-13 | every protected path has `d` or `:` as its second character |
| RouteGuard.TenantPathNotProtected | src/middleware.ts:10-13 | a real tenant path such as `/acme/sales`, whose second character is neither `d` nor `:`, is not protected by the check |
| RouteGuard.AuthSecondChar | src/middleware.ts:16 | every login or register path has `l` or `r` as its second character |
| RouteGuard.ProtectedAndAuthDisjoint | src/middleware.ts:10-16 | no path is both protected and a login or register page |
| SideBar.ReplaceTenant | src/app/components/dashboard/SideBar.tsx:54 | replacing `[tenant]` in a link template gives `/` + tenant + section |
| SideBar.NavigationHrefs | src/app/components/dashboard/SideBar.tsx:20-27 | each of the six links is `/<tenant>` followed by its section |
| SideBar.DashboardExactMatch | src/app/components/dashboard/SideBar.tsx:55-56 | the Dashboard link is highlighted iff the path is exactly `/<tenant>` |
| SideBar.AtMostOneActive | src/app/components/dashboard/SideBar.tsx:53-56 | at most one link is highlighted, whatever the path |
| SideBar.ActiveLinks | src/app/components/dashboard/SideBar.tsx:53-56 | one flag per link; without a path nothing is highlighted |
| Text.Contains | src/app/components/products/ProductTable.tsx:47-50 | `includes` holds iff the term starts at some position of the text |
| Text.Trim | src/app/components/sales/SaleForm.tsx:169-171 | the result is no longer than the input, starts and ends with a non-whitespace character when not empty, and equals the input when it has no whitespace |
| Text.TrimEmptyIffBlank | src/app/components/sales/SaleForm.tsx:169 | trimming gives the empty string iff the text is all whitespace |
| Text.Lower | src/app/components/products/ProductTable.tsx:47-50 | the result has the input's length and each character lower-cased |
| Text.LowerIdempotent | src/app/components/products/ProductTable.tsx:47-50 | the result has no upper-case letter, and lower-casing it again changes nothing |
| Text.LowerOfLower | src/app/api/register/route.ts:32 | a string without upper-case letters is left unchanged |
| Text.ReplaceFirst | src/middleware.ts:12 | only the first occurrence of the pattern is replaced; a string without it is unchanged |
| Text.IndexOf | src/middleware.ts:12 | the first occurrence of the pattern, or none when it does not occur |
| Text.DecimalRoundTrip | src/app/api/webhooks/mercadopago/route.ts:89 | the decimal string of the payment id reads back as the same number |

## Left out

- The database is modelled as in-memory maps. Prisma, its query engine, concurrency between requests, and each `$transaction` are not modelled. A transaction's all-or-nothing effect is captured by computing the new tables first and committing them at once.
- Database errors other than a missing row are not modelled. This covers the connection, constraint violations such as a user-id clash, and timeouts. Each of them ends in the routes' generic 500 catch blocks.
- Session lookup (`getServerSession`, `getToken`), `request.json()` parse errors, `bcrypt` hashing and `Date.now()` are not modelled. Each is an input of the modelled operation.
- Floating-point money (`Number(...)`, `Decimal`) is not modelled. Amounts are integers.
- Strings are sequences of characters. Lower-casing, the whitespace class of `trim` and `\s`, and the 6-character password length cover ASCII only. JavaScript counts UTF-16 code units.
- `Text.ReplaceFirst`: the `$` replacement patterns of JavaScript's `replace` are not modelled.
- Fields are not checked for JSON type in the sales-actions and register routes. A non-string truthy value (a number, an object) is treated as a given string. The checkout route checks types, and `Checkout.Field` models that.
- Checkout: the SDK call retried without `auto_return` is not modelled as two calls. The `sdk` input is the outcome of the call together with its retry. `sent` is the first body, with `autoReturn`.
- Checkout: a `planId` that names a property of `Object.prototype` (`constructor`, `toString`) is not modelled. Such a name passes JavaScript's `ARGENTINA_PRICING[planId]` lookup; the model's table has only its three keys.
- Checkout: `Checkout.Post` reports the found tenant through `sent`, the preference it builds. With the slug uniqueness of the store invariant, that tenant is the one with the requested slug.
- MercadoPagoWebhook.Post: an exception from `Payment.get` (a 500) is not modelled. `payment` is the fetched record, None when it is absent.
- Payment ids are natural numbers. `toString()` of a non-integer id is not modelled.
- The rendering of every page (markup, icons, price and date formatting, the sign-out button) is not modelled. Neither are the data fetching of the sale form and the customer creation.
- The sale that the sale form submits is created by another route, which is not part of this model.
- `src/app/api/[tenant]/sales/refund/route.ts` is not part of this model. It restocks a sale and marks it REFUNDED; `SalesActions.CancelRestocksRefundedSale` states what a later cancel then does.
- The business-category list of the register page is display only and is not modelled.
- `router.push` is modelled by its target path (`redirect`). The navigation itself is not modelled.
