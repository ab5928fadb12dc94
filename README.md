# UKSChat subscription, quota and billing bookkeeping in Dafny

UKSChat is a chat service whose users hold subscriptions to plans with a
monthly message quota, buy plans through Razorpay (INR) or Stripe (USD), and
are managed by administrators. This project models the backend's bookkeeping
over its six tables (users, plans, subscriptions, payments, chat messages,
usage logs) and two client-side decision rules, and proves what the code
promises about them.

- `records.dfy` (module `Records`): the table rows, HTTP outcome codes and
  shared constants. `query.dfy` (`Query`): `.first()`, filtering, reversal
  and an insertion sort as used by the queries.
- `database.dfy` (`Database`): class `Db`, one `seq` field per table, with
  the schema's constraints (auto-increment keys, unique e-mail, unique
  transaction id, foreign keys) as `Valid()`, and the shared lookups.
- `payments.dfy`, `chat.dfy`, `subscriptions.dfy`, `auth.dfy`,
  `plans.dfy`, `admin_plans.dfy`, `admin_billing.dfy`: one module per router.
  Endpoints that write become methods on `Db` that return
  `Result = Ok(...) | Err(code)`. Queries become functions.
- `plan_seeder.dfy`, `user_seeder.dfy`, `subscription_seeder.dfy`: the
  start-up seeders.
- `pricing.dfy` (`Pricing`) and `app.dfy` (`App`): the pricing page's buy
  rule and button, the route guard, the route table and logout.

Conventions: prices and amounts are integers in minor units (paise, cents),
so the seeded 299 and 599 rupee plans cost 29900 and 59900. Timestamps are
integer seconds. The current time is a parameter. Rows are never deleted by
the modelled code, so a row's key is its position + 1, and "latest" among
rows with equal timestamps is decided by table order. Outcomes of code
outside the model are parameters: the AI reply (or `None` for failure), the
Razorpay order id, the signature verdict, the Stripe session, the invoice
file name, the password check and password hashes.

Behaviour of the code that the model keeps as written:
- `send_message` stores the user's message before reading the history, so
  the AI context ends with the current message twice
  (`Chat.CurrentMessageRepeated`).
- `razorpay_verify` activates the payment's plan for the caller without
  checking that the payment is the caller's or not already successful.
- The pricing page sends every non-INR plan to Stripe, but the Stripe
  endpoint accepts only USD plans (`Pricing.OtherCurrencyRejected`).
- Registration looks for an active price-0 plan, but the subscription
  seeder takes the first price-0 plan whether active or not.

## Model

| member | source | states |
|---|---|---|
| Database.UserByEmail | backend/routers/auth.py:38 | the index found holds that e-mail, and none is found exactly when no user has it |
| Database.UserByIdAtPosition | backend/models.py:10 | with auto-increment keys the user with key `id` is the row at `id - 1`, and none exists outside `1..|users|` |
| Database.PlanByIdAtPosition | backend/models.py:36 | with auto-increment keys the plan with key `id` is the row at `id - 1`, and none exists outside `1..|plans|` |
| Database.LatestActive | backend/routers/chat.py:83-91 | the row found is an active subscription of the user with the greatest start date (earliest row among ties); none is found exactly when the user has no active subscription |
| Database.FirstActive | backend/routers/subscriptions.py:50-53 | the row found is the user's first active subscription; none exactly when the user has none |
| Database.ForeignKeysResolve | backend/models.py:24-86 | in a database that keeps `Db.Valid()` (keys are positions, unique e-mails and transaction ids, every foreign key in range) each subscription's, payment's, chat message's and usage log's user key, and each subscription's and payment's plan key, is found by the key lookup at the row it names |
| Database.PaymentUpdateKeepsValid | backend/models.py:74 | changing a payment's status or invoice keeps transaction ids unique and every other table constraint |
| Database.AppendUserKeepsValid | backend/models.py:11 | adding a user with the next key and an unregistered e-mail keeps e-mails unique and every other constraint |
| Payments.ExpireActive | backend/routers/payments.py:35-38 | the bulk update keeps the table's length and turns each row of the user that is "active" into "expired", row by row in place, leaving every other row as it was |
| Payments.ExpireActiveEffect | backend/routers/payments.py:35-38 | afterwards the user has no active row, the user's active rows became expired, and every other row is unchanged |
| Payments.ActivationLeavesOneActive | backend/routers/payments.py:30-47 | after activation exactly one subscription of the user is active, the new one for the given plan with 0 tokens used ending 30 days after its start; other users' rows are unchanged |
| Payments.ActivateSubscription | backend/routers/payments.py:30-52 | the loop leaves the subscriptions table equal to the bulk expiry followed by the new 30-day row, and keeps every table constraint |
| Payments.PlanForPurchase | backend/routers/payments.py:61-63 | a plan is found exactly when a plan with that key is active and has the requested currency |
| Payments.OrderAmount | backend/routers/payments.py:65 | the order amount is at least 100 paise and at least the price, and is one of the two |
| Payments.TransactionIdUsed | backend/models.py:74 | true exactly when some payment already has that transaction id |
| Payments.RazorpayCreateOrder | backend/routers/payments.py:55-92 | 400 and no payment unless the plan exists, is active and is INR; on success exactly one "created" Razorpay payment is recorded whose transaction id is the returned order id |
| Payments.RazorpayPaymentFor | backend/routers/payments.py:118-124 | the payment found is a Razorpay payment with that transaction id; none exactly when there is no such payment |
| Payments.RazorpayVerify | backend/routers/payments.py:95-142 | 400 with nothing changed for a missing field or a bad signature, 404 when no Razorpay payment has the order id; with all fields, a valid signature and a known order the answer is success, that payment becomes "success" with its invoice and its plan is activated for the caller |
| Payments.StripeCheckout | backend/routers/payments.py:145-184 | 400 and no payment unless the plan exists, is active and is USD; on success one "pending" Stripe payment keyed by the session id is recorded and the session URL returned |
| Chat.RecentFirst | backend/routers/chat.py:118-124 | the history query returns the user's newest `limit` messages, or all of them when fewer |
| Chat.RecentFirstReversed | backend/routers/chat.py:118-131 | reversing the newest-first list gives the user's newest messages in chronological order |
| Chat.BuildContext | backend/routers/chat.py:126-133 | the loop builds the system prompt, then the fetched messages oldest first, then the current message |
| Chat.Context | backend/routers/chat.py:118-133 | the context has 2 to 12 entries: the system prompt first, the current message last, and between them as many of the user's stored messages as there are, at most 10 |
| Chat.ContextHoldsOwnMessages | backend/routers/chat.py:118-133 | every entry between the system prompt and the current message is one of the calling user's own stored messages |
| Chat.CurrentMessageRepeated | backend/routers/chat.py:108-133 | the context has 3 to 12 entries, starts with the system prompt and ends with the current message twice |
| Chat.QuotaCheck | backend/routers/chat.py:82-106 | 402 when the user has no active subscription; with a valid plan, the latest active subscription is returned when its used tokens are below the plan's monthly tokens and 402 otherwise; a returned subscription is always the latest active one and below its quota |
| Chat.SendMessage | backend/routers/chat.py:74-166 | a failed quota check stores nothing; otherwise the user's message is stored; an AI failure is 500 with nothing else changed; a reply is stored, used tokens grow by exactly 1 and one usage log of 1 token is added |
| Chat.Answer | backend/routers/chat.py:108-166 | after a passed check the user's message is stored and the context built from it; an AI failure is 500 with nothing else changed; a reply is stored, the checked subscription's used tokens grow by 1 and one usage log of 1 token is added |
| Chat.SpendStaysWithinQuota | backend/routers/chat.py:102-146 | a send that passes the quota check leaves used tokens at most the plan's monthly tokens |
| Subscriptions.Remaining | backend/routers/subscriptions.py:29 | remaining tokens are never negative and equal tokens per month minus used tokens whenever that is positive |
| Subscriptions.MySubscription | backend/routers/subscriptions.py:10-42 | "not active" exactly when the user has no active subscription; otherwise the latest active one with its plan's name, price and currency, remaining tokens, and `is_expired` exactly when the end date is before now |
| Subscriptions.CancelSubscription | backend/routers/subscriptions.py:45-61 | 404 with nothing changed when the user has no active subscription; otherwise only the first active one becomes "cancelled" |
| Subscriptions.CancelChangesOneRow | backend/routers/subscriptions.py:50-59 | the cancelled row was the user's and active, is now cancelled, and every other row is unchanged |
| Auth.FreePlan | backend/routers/auth.py:14-19 | the plan found is the first active plan with price 0; none exactly when no such plan exists |
| Auth.WithFreePlan | backend/routers/auth.py:12-33 | the old rows are kept as they were and one row is added exactly when an active plan with price 0 exists: the user's, active, with the next key, 0 tokens used, starting now and ending 30 days later, for the first such plan |
| Auth.ActivateFreePlan | backend/routers/auth.py:12-33 | the subscriptions table becomes the one with the free plan granted, and every constraint holds |
| Auth.Register | backend/routers/auth.py:36-54 | an already registered e-mail is 400 with nothing added; otherwise one user with role "user" is added and given the free plan |
| Auth.Login | backend/routers/auth.py:57-73 | 401 exactly when the e-mail is unknown or the password check fails; otherwise the stored user's id, role and e-mail with token type "bearer" |
| Auth.LoginFindsTheAccount | backend/routers/auth.py:59-73 | with unique e-mails a successful login reports the one user with that e-mail |
| Plans.ListActivePlans | backend/routers/plans.py:16-21 | only active plans of the table, ordered by price ascending, a permutation of the active subset |
| Plans.ActivePlansListedOnce | backend/routers/plans.py:16-21 | every active plan appears exactly once and no inactive plan appears |
| Plans.ListedIffActive | backend/routers/plans.py:18 | a plan of the table is listed exactly when it is active |
| AdminPlans.AdminListPlans | backend/routers/admin_plans.py:18 | all plans, active or not, newest creation time first, as a permutation of the table |
| AdminPlans.CreatedPlanListing | backend/routers/admin_plans.py:28-36 | a plan created active appears once in the public list, one created inactive does not |
| AdminPlans.AdminCreatePlan | backend/routers/admin_plans.py:22-39 | one plan is appended with the next key and every request field stored unchanged (absent currency "INR", absent flag active) |
| AdminPlans.SuppliedFields | backend/routers/admin_plans.py:53 | an update supplies at most the six plan fields |
| AdminPlans.SetFieldsAppend | backend/routers/admin_plans.py:54-55 | setting two lists of fields one after the other is the same as setting their concatenation |
| AdminPlans.SuppliedFieldsPatch | backend/routers/admin_plans.py:53-55 | setting the supplied fields one by one changes exactly the supplied fields to the supplied values and keeps every other column, key and creation time included |
| AdminPlans.PatchIdempotent | backend/routers/admin_plans.py:53-55 | applying the same update twice gives the same plan as applying it once |
| AdminPlans.ApplyUpdate | backend/routers/admin_plans.py:53-55 | the `setattr` loop yields the plan with only the supplied fields changed |
| AdminPlans.AdminUpdatePlan | backend/routers/admin_plans.py:42-59 | 404 with nothing changed for a missing key; otherwise only that plan is replaced by its patched version |
| AdminPlans.ToggleFlipsListing | backend/routers/admin_plans.py:72 | toggling moves a plan into the public list if it was inactive and out of it if it was active; toggling twice restores the plan |
| AdminPlans.AdminTogglePlan | backend/routers/admin_plans.py:62-75 | 404 with nothing changed for a missing key; otherwise only that plan's active flag is negated |
| AdminBilling.JoinPayments | backend/routers/admin_billing.py:28-29 | the join yields at most one row per payment |
| AdminBilling.ListPayments | backend/routers/admin_billing.py:16-32 | the rows are ordered by creation time descending and are a permutation of the joined rows |
| AdminBilling.JoinKeepsEveryPayment | backend/routers/admin_billing.py:28-29 | under the schema's keys the join drops no payment and the k-th row carries the k-th payment, its own user's e-mail and its own plan's name |
| AdminBilling.ListedRowsCarryOwners | backend/routers/admin_billing.py:16-46 | every payment is listed, and each listed row carries its own payment's fields, that payment's user's e-mail and that payment's plan's name |
| AdminBilling.UsagePairs | backend/routers/admin_billing.py:56-61 | the usage join yields at most one pair per usage log |
| AdminBilling.GroupTotalIsUserTotal | backend/routers/admin_billing.py:56-64 | with unique e-mails, a user's group total is the sum of tokens used over that user's own usage logs |
| AdminBilling.DistinctEmails | backend/routers/admin_billing.py:62 | the groups are the e-mails of the joined logs, each exactly once |
| AdminBilling.TopUsers | backend/routers/admin_billing.py:56-64 | the totals are ordered by tokens descending |
| AdminBilling.TopUsersTotals | backend/routers/admin_billing.py:56-79 | every e-mail with usage appears exactly once with its own token total, and nothing else appears |
| AdminBilling.TotalRevenue | backend/routers/admin_billing.py:68-73 | revenue sums successful payments only; it is 0 when no payment succeeded and never negative for non-negative amounts |
| AdminBilling.Summary | backend/routers/admin_billing.py:50-80 | revenue is 0 when no payment succeeded and never negative for non-negative amounts; `top_users` is ordered by tokens descending |
| AdminBilling.UsagePairsFromUsers | backend/routers/admin_billing.py:56-61 | every pair of the usage join carries the e-mail of a registered user |
| AdminBilling.UsagePairsCoverUsage | backend/routers/admin_billing.py:56-61 | a usage log whose user exists contributes a pair with that user's e-mail |
| AdminBilling.SummaryReportsUserTotals | backend/routers/admin_billing.py:56-80 | under the schema's constraints each `top_users` entry names a registered user with the sum of that user's own usage logs, and every user with a usage log is listed with that sum |
| AdminBilling.RevenueUpdate | backend/routers/admin_billing.py:68-73 | changing one payment changes revenue by the difference of its contributions, so marking a payment successful adds exactly its amount |
| PlanSeeder.DefaultPlans | backend/dbseeders/PlanSeeder.py:7-33 | exactly three plans, all active and in INR, with keys 1 to 3 |
| PlanSeeder.SeededPlans | backend/dbseeders/PlanSeeder.py:5-37 | a non-empty plans table is left unchanged; an empty one receives three plans |
| PlanSeeder.SeedPlansIdempotent | backend/dbseeders/PlanSeeder.py:6 | a second run leaves the table as the first run left it |
| PlanSeeder.FreeTierIsTheFreePlan | backend/dbseeders/PlanSeeder.py:9-15 | the seeded "Free Tier" is the plan registration detects as free |
| PlanSeeder.SeedPlans | backend/dbseeders/PlanSeeder.py:5-37 | the plans table becomes the seeded one; every constraint holds |
| UserSeeder.WithAccount | backend/dbseeders/UserSeeder.py:8-21 | earlier accounts are kept as they were; one account is added exactly when the e-mail is not registered, with the next key and the given e-mail, hash, role and time; afterwards the e-mail is registered |
| UserSeeder.WithAccountKeepsUsers | backend/dbseeders/UserSeeder.py:8-21 | the guarded insert keeps keys equal to positions and e-mails unique |
| UserSeeder.SeededAccounts | backend/dbseeders/UserSeeder.py:6-37 | after a run both accounts exist, earlier accounts are unchanged, and a created admin has role "admin" and a created default user role "user" |
| UserSeeder.SeedUsersIdempotent | backend/dbseeders/UserSeeder.py:9-37 | a second run adds no users |
| UserSeeder.SeedUsers | backend/dbseeders/UserSeeder.py:6-37 | the users table becomes the seeded one; every constraint holds |
| SubscriptionSeeder.ExistingSubscription | backend/dbseeders/SubscriptionSeeder.py:7-10 | the row found belongs to that user and plan, whatever its status; none exactly when there is no such row |
| SubscriptionSeeder.WithSeededSubscription | backend/dbseeders/SubscriptionSeeder.py:6-25 | the old rows are kept as they were and one row is added exactly when the user has no subscription for the plan: active, for that user and plan, with the next key, 0 tokens used, starting now and ending 365 days later; afterwards the pair is subscribed |
| SubscriptionSeeder.CreateSubscriptionTwice | backend/dbseeders/SubscriptionSeeder.py:6-25 | a second call with the same user and plan, at any time, adds nothing |
| SubscriptionSeeder.ProPlus | backend/dbseeders/SubscriptionSeeder.py:32 | the plan found is named "Pro Plus"; none exactly when no plan has that name |
| SubscriptionSeeder.AnyFreePlan | backend/dbseeders/SubscriptionSeeder.py:41 | the plan found has price 0; none exactly when no plan is free |
| SubscriptionSeeder.SeededExtends | backend/dbseeders/SubscriptionSeeder.py:28-46 | a run only appends, at most two rows |
| SubscriptionSeeder.SeededSubscriptionsGrant | backend/dbseeders/SubscriptionSeeder.py:31-46 | the admin is subscribed to "Pro Plus" and the default user to the free plan whenever both records of the pair exist; with neither pair nothing is added |
| SubscriptionSeeder.SeedSubscriptionsIdempotent | backend/dbseeders/SubscriptionSeeder.py:28-46 | a second run adds no subscriptions |
| SubscriptionSeeder.FirstStartUsers | backend/dbseeders/UserSeeder.py:6-37 | on an empty users table the admin gets key 1 and the default user key 2, each found under its e-mail |
| SubscriptionSeeder.FirstStartPlans | backend/dbseeders/SubscriptionSeeder.py:32-41 | in the seeded catalogue "Pro Plus" has key 3 and the first free plan key 1 |
| SubscriptionSeeder.FirstStartSubscriptions | backend/dbseeders/SubscriptionSeeder.py:28-46 | on a fresh database after the plan and user seeders, the admin gets "Pro Plus" and the default user "Free Tier", both for 365 days |
| SubscriptionSeeder.CreateSubscription | backend/dbseeders/SubscriptionSeeder.py:6-25 | the insert-if-absent on the table being built, keeping every constraint |
| SubscriptionSeeder.SeedAdmin | backend/dbseeders/SubscriptionSeeder.py:31-37 | the admin's step subscribes the admin to "Pro Plus" when both exist, keeping every constraint |
| SubscriptionSeeder.SeedDefaultUser | backend/dbseeders/SubscriptionSeeder.py:40-46 | the default user's step subscribes that user to the first free plan when both exist, keeping every constraint |
| SubscriptionSeeder.SeedSubscriptions | backend/dbseeders/SubscriptionSeeder.py:28-46 | the subscriptions table becomes the seeded one; every constraint holds |
| Pricing.GatewayFor | frontend/src/pages/Pricing.jsx:40-44 | Razorpay exactly for INR, Stripe for every other currency |
| Pricing.HandleBuy | frontend/src/pages/Pricing.jsx:31-45 | without a token a click goes to /login; a click on the current plan does nothing; any other click pays for that plan, with Razorpay exactly when its currency selects Razorpay and with Stripe otherwise |
| Pricing.ButtonFor | frontend/src/pages/Pricing.jsx:86-106 | the card shows "sign in" exactly when a click goes to the login page, the disabled "activated" button exactly when a click does nothing, and the gateway a click would pay with |
| Pricing.OtherCurrencyRejected | frontend/src/pages/Pricing.jsx:40-44 | a plan in neither INR nor USD goes down the Stripe path, which the backend rejects |
| Pricing.CurrentPlanIsLatestActive | frontend/src/pages/Pricing.jsx:67 | with the backend's answer, the plan marked current is exactly the plan of the latest active subscription |
| App.PrivateRoute | frontend/src/App.jsx:14-23 | no token redirects to /login whatever the role; an admin-only route with a role other than "admin" redirects to /chat; otherwise the page renders |
| App.BrowserStorage.RemoveItem | frontend/src/App.jsx:29-31 | the key is removed and every other entry kept |
| App.BrowserStorage.HandleLogout | frontend/src/App.jsx:28-33 | token, role and e-mail are removed, every other entry is kept, and the target is /login |
| App.LoggedOutIsRedirected | frontend/src/App.jsx:14-33 | after logout every guarded route redirects to /login |
| App.AdminRoutesAreGuarded | frontend/src/App.jsx:73-96 | every "/admin" route of the table is wrapped in an admin-only guard |
| App.AdminPagesNeedAdminRole | frontend/src/App.jsx:73-96 | no "/admin" page renders for a role other than "admin" |

## Left out

- Calls to the AI services, Razorpay and Stripe: their outcomes are parameters. A failed gateway call becomes HTTP 500, as an uncaught exception would.
- Invoice PDF generation, invoice e-mail and `download_invoice`: file-system and SMTP I/O. Only the invoice file name stored on the payment is modelled.
- Password hashing, password verification and JWT creation: the stored hash and the password check are parameters, and the access token is reduced to the user id it signs.
- Admin and user authentication dependencies: every endpoint receives the calling user's id, and admin endpoints assume an admin caller.
- Float prices and revenue: prices, amounts and the revenue sum are integers in minor units, so `int(plan.price * 100)` is the price itself.
- Clocks: `datetime.utcnow()` and `func.now()` are the `now` parameter; `timedelta(days=n)` is `n * 86400` seconds.
- Ordering by timestamp among equal timestamps: the model fixes table order, which the database does not promise.
- `.first()` without `order_by` returns whichever row the database yields first; the model takes the first row in table order in `Auth.FreePlan` (auth.py:14-19), `Database.FirstActive` (subscriptions.py:50-53), `SubscriptionSeeder.ProPlus` (SubscriptionSeeder.py:32) and `SubscriptionSeeder.AnyFreePlan` (SubscriptionSeeder.py:41).
- Plans.ListActivePlans: plans with equal prices come out in the order the insertion sort leaves them; `order_by(price.asc())` in plans.py:19 leaves their order to the database, so only the order by price and the permutation are claimed.
- AdminBilling.TopUsers: groups with equal totals come out in the order the insertion sort leaves them; the database does not fix their order either, so only the descending order and the contents are claimed.
- Chat.RecentFirst: the history is ordered by `created_at` in chat.py:118-124; the model orders by table position, which agrees when messages are stored with non-decreasing creation times; the clock is a parameter, so the model does not enforce that.
- Database sessions, commit and refresh, and concurrent requests: each endpoint runs atomically on `Db`.
- Foreign keys and NOT NULL columns are table invariants; a null `tokens_used`, which no modelled code writes, is not represented, so the `or 0` of a null group total never applies.
- AdminPlans.AdminUpdatePlan: a field sent explicitly as `null` is treated as unset; the endpoint would write the null into the column.
- Pricing page state loading and the `payments.js` redirect and widget flow: network plumbing. The page's state is given as the stored token and the subscription answer.
- React rendering of all pages beyond the route table, the guard and the pricing buttons.
