# Brasa Primal storefront core, modelled in Dafny

Brasa Primal sells bags of charcoal from a drive-thru. A customer:

- picks a quantity on the storefront;
- optionally redeems a free bag with the "brasas" they have earned;
- pays by PIX through a payment gateway;
- collects the order at the factory by showing a QR ticket.

An admin scans that ticket on a pickup terminal, which marks the order as handed over (`RETIRADO`). The admin panel shows today's revenue and bag count and a seven-day revenue chart. It also lets the admin approve a PIX payment by hand.

The application holds every piece of this logic twice:

- once in React hook controllers (`src/controllers/*`);
- once inline in the pages the router actually serves (`src/app/*`).

The two copies differ in small ways. The model keeps one definition per concept and passes a `Flow` value (`HookController` or `RoutedPage`) wherever the two copies behave differently.

Modules, one per file:

- `common.dfy` (**Common**): `Option`, `Flow`, the JavaScript remainder `JsRem`, and substring search.
- `orders.dfy` (**Orders**): the `pedidos`, `itens_pedido` and `produtos` rows and their filters and sums.
  - `.update().eq(…)` is modelled as `PatchById` and `PatchByRef`.
  - The hosted database is the `Store` class, with its insert and update operations.
- `loyalty.dfy` (**Loyalty**): the brasas balance, with its unit price and threshold as parameters, and the rewards and progress derived from it.
- `checkout.dfy` (**Checkout**):
  - pricing and the planned line items;
  - the `Place`/`Submit`/`Settle`/`Charge` specification of `gerarPedido`;
  - the quantity stepper;
  - the `Storefront` class, whose methods are proved against those specification functions.
- `scanner.dfy` (**Scanner**):
  - ticket URL and id extraction;
  - the `Redeem` specification of `processarQRCode`;
  - the `Terminal` class: its four-state status machine and restart-timer flag.
- `lifecycle.dfy` (**Lifecycle**): every write to an order's status, as events, and the invariants they keep; the checkout's writes are proved to be such a run of events. The writers are checkout, the gateway function, the admin approval, the payment webhook and the pickup terminal.
- `admin.dfy` (**Admin**): the daily KPIs, the seven-bucket chart, and the `Dashboard` class (reload, approval, product modal).
- `client.dfy` (**Client**): status badges, the pickup ticket, and the `ClientArea` class (loading, balance, phone field, copy PIX).
- `auth.dfy` (**Auth**): the WhatsApp phone mask, the sign-up and login checks, the error translation, and the `AuthForm` class.

Conventions:

- Money is in integer cents (a `nat`).
- Days are integers.
- Status columns are the `Status` datatype, with an `Other(name)` case for any unknown text. An order's status has the subset type `CanonicalStatus`, so `Other` never spells one of the three known texts.
- The outcome of each external call is a parameter of the operation that makes it, such as `Backend`, `Lookup`, `sessionOk`, `ordersOk` or a reply message. Each modelled operation covers every outcome of the calls it makes, a failed session read included.

## Model

| member | source | states |
|---|---|---|
| Common.JsRem | src/app/cliente/page.tsx:267 | the dividend equals the quotient truncated toward zero times the divisor plus the result; the result keeps the dividend's sign and stays below the divisor in magnitude, as JavaScript `%` does |
| Common.CountPositive | src/controllers/authController.ts:37 | a character occurs a positive number of times exactly when it is in the string |
| Orders.ParseStatus | src/app/cliente/page.tsx:230-264 | every status text is read as a canonical status whose text is that text |
| Orders.ParseStatusRoundTrip | src/app/cliente/page.tsx:237-257 | reading a status's text gives the status back, so each status text names exactly one status |
| Orders.Ids | src/app/page.tsx:96 | one id per order, in order; the `.in(...)` queries built from it ignore an id with no items (`ItemsOfOrdersExtraId`) |
| Orders.ItemsOf | src/models/services/adminScannerService.ts:7-14 | keeps exactly the items of that order |
| Orders.FindOrder | src/models/services/adminScannerService.ts:4-19 | the row found has the requested id; none is found exactly when no row has that id |
| Orders.FindOrderAt | src/models/services/adminScannerService.ts:14-15 | with unique ids, the lookup returns the row at that position |
| Orders.FreeItems | src/app/page.tsx:99-103 | keeps exactly the items whose frozen price is 0 |
| Orders.ItemsOfOrders | src/app/page.tsx:99-103 | keeps exactly the items of one of the given orders |
| Orders.OrdersOf | src/app/page.tsx:83-86 | keeps exactly the orders owned by the user |
| Orders.FreeQtyAtMostQty | src/controllers/adminScannerController.ts:63-66 | the free units of a set of items never exceed its total units |
| Orders.SumQtyAppend | src/app/page.tsx:105-108 | the quantity sum distributes over concatenation |
| Orders.ItemsOfOrdersExtraId | src/app/page.tsx:98-103 | an id without items changes nothing in the `.in("pedido_id", ids)` query |
| Orders.PatchById | src/models/services/adminService.ts:28-35 | an update by id rewrites every row with that id and no other row, keeping the length; it never changes an id (`PatchKeepsIds`), and approving twice is approving once (`Lifecycle.ApprovalIdempotent`) |
| Orders.PatchByRef | supabase/functions/webhook-pix/index.ts:33-36 | an update by payment id rewrites every row charged under it and no other row; an approved notice pays exactly the orders charged under it (`Lifecycle.WebhookPaysChargedOrder`) |
| Orders.PatchKeepsIds | src/models/services/adminScannerService.ts:21-28 | no update changes an order's id |
| Orders.Store.InsertOrder | src/app/page.tsx:170-180 | appends the row and keeps ids unique and items pointing at existing orders |
| Orders.Store.InsertItems | src/app/page.tsx:207-211 | appends the batch and keeps every item pointing at an existing order |
| Orders.Store.UpdateById | src/models/services/adminService.ts:28-35 | the orders table becomes `PatchById` of the old one, still valid |
| Orders.Store.UpdateByRef | supabase/functions/webhook-pix/index.ts:33-36 | the orders table becomes `PatchByRef` of the old one, still valid |
| Loyalty.DeliveredOrders | src/controllers/clientController.ts:51-53 | keeps exactly the `RETIRADO` orders |
| Loyalty.SpentOrderIndependent | src/controllers/homeController.ts:54-56 | any two arrangements of the same rows (equal multisets) have the same spent sum |
| Loyalty.OnlyDeliveredEarn | src/controllers/clientController.ts:51-56 | a new order adds its total to the spent sum when it is `RETIRADO`, and nothing in any other status |
| Loyalty.RedeemedUnitsIsQuery | src/app/page.tsx:94-109 | the redeemed count, which skips the query when there are no orders, always equals the sum over the free-item query |
| Loyalty.RewardsAndProgress | src/controllers/clientController.ts:197-199 | for a non-negative balance, rewards × threshold + progress = balance, with 0 ≤ progress < threshold |
| Loyalty.NegativeBalanceInClientArea | src/app/cliente/page.tsx:266-268 | for a negative balance the reward count is negative and the progress is 0 or −1, following JavaScript `Math.floor` and `%` |
| Loyalty.ProgressPercentRange | src/app/cliente/page.tsx:268 | the progress bar lies in [0, 100) for a non-negative balance and in (−100, 0] otherwise |
| Loyalty.BalanceCanBeNegative | src/controllers/clientController.ts:56 | one free bag redeemed with nothing delivered gives a balance of −2: the balance is never clamped |
| Checkout.PlannedItemsMatchTotal | src/controllers/homeController.ts:91-119 | the planned items' Σ qty × price equals the total; their Σ qty equals the quantity; all carry the order id; one free unit exactly when a reward is used |
| Checkout.GuardsWriteNothing | src/controllers/homeController.ts:97-98 | without a user, or when the quantity exceeds the stock, nothing is written and the result is the redirect or the stock alert |
| Checkout.OrderRowWritten | src/controllers/homeController.ts:102-106 | once past the guards, exactly one row is appended with the owner, total and day; it is `PAGO` iff the total is 0 and `AGUARDANDO_PAGAMENTO` iff it is positive; nothing before it changes |
| Checkout.ItemsAppended | src/app/page.tsx:184-213 | the items table gains exactly the planned items when they were written, and nothing otherwise |
| Checkout.ZeroTotalSkipsGateway | src/controllers/homeController.ts:123-129 | a zero-total order ends paid, with the same result whatever the gateway would have answered |
| Checkout.PositiveTotalCallsGateway | src/app/page.tsx:227-252 | a positive total stays `AGUARDANDO_PAGAMENTO`, gets the gateway reference and code, and shows the PIX only when the QR update succeeded (hook) or always (page); a refused charge fails |
| Checkout.OrderTotalMatchesItems | src/controllers/homeController.ts:102-119 | after checkout, the new order's items add up to its stored total |
| Checkout.RewardCheckoutLowersBalance | src/controllers/homeController.ts:54-63 | placing an order that redeems a bag lowers the customer's balance by exactly the threshold |
| Checkout.BuyButtonGuards | src/app/page.tsx:534 | the buy button is enabled iff no checkout runs, stock is left and the hour is 7 to 21; with no stock it is disabled and a checkout would stop at the stock guard, writing nothing |
| Checkout.PageItemsFailureOverstatesBalance | src/app/page.tsx:92-111 | with the items query failed, the page's balance exceeds the true one by 10 per bag already redeemed; `Storefront.LoadInitial` states this of the page's result |
| Checkout.StepperStaysInStock | src/app/page.tsx:472-496 | an enabled minus lowers the quantity by one and keeps the reward; plus never exceeds the stock; a disabled minus would reset to 1 without the reward |
| Checkout.ActiveProduct | src/app/page.tsx:65-70 | the product returned is active and listed; none is returned only when no product is active |
| Checkout.Storefront.constructor | src/app/page.tsx:30-49 | the page's initial state |
| Checkout.Storefront.LoadInitial | src/app/page.tsx:57-115 | a failed session read sets nothing in the hook and counts as no session on the page; otherwise sets the session user and, when the product query answers, the active product and stock; with both queries answering the balance is the customer's at the product's price and threshold 10; a failed orders or items query keeps the old balance in the hook copy (src/controllers/homeController.ts, lines 36-71), while on the routed page a failed orders query gives 0 and a failed items query gives the earned brasas with past redemptions ignored |
| Checkout.Storefront.PressMinus | src/app/page.tsx:472-476 | a disabled button changes nothing; otherwise the state becomes the minus click's |
| Checkout.Storefront.PressPlus | src/app/page.tsx:492-496 | a disabled button changes nothing; otherwise the quantity becomes `min(stock, q + 1)` |
| Checkout.Storefront.ToggleReward | src/app/page.tsx:503-521 | the reward flips only when the balance is at least 10 |
| Checkout.Storefront.Checkout | src/controllers/homeController.ts:96-144 | the tables become those `Place` gives and the result is its result; it covers the redirect, processing cleared, the order id, paid and balance −10 on a free order, the payment step and the PIX fields |
| Checkout.Storefront.SubmitOrder | src/app/page.tsx:165-181 | past the guards, the tables and result are `Submit`'s, and the order id is set once the row is written |
| Checkout.Storefront.SettleOrder | src/app/page.tsx:183-225 | once the row is written, the tables and result are `Settle`'s; a free order is marked paid at once and the balance drops by 10 |
| Checkout.Storefront.WriteItems | src/app/page.tsx:184-213 | writes exactly the planned items, skipping the insert when there are none; it reports failure only when a non-empty insert fails |
| Checkout.Storefront.ChargeOrder | src/app/page.tsx:227-252 | the orders table and result are `Charge`'s; the PIX fields and the payment step are set only when the PIX is shown |
| Scanner.LastSegment | src/controllers/adminScannerController.ts:31 | the result is a suffix of the scanned text, holds no `/`, and is preceded by `/` unless it is the whole text |
| Scanner.TicketRoundTrip | src/app/cliente/page.tsx:513 | extracting the id from a ticket URL, or from a bare id, gives back the id |
| Scanner.PaidTextIsHandedOver | src/controllers/adminScannerController.ts:54-60 | every order whose stored status text is "PAGO" is handed over when the update succeeds |
| Scanner.HandedIffPaid | src/controllers/adminScannerController.ts:52-60 | bags are handed over iff the order is found, is `PAGO` and the update succeeds; each rejection names the first failing check in source order |
| Scanner.RejectionKeepsOrders | src/app/admin/AdminScanner.tsx:72-86 | a rejected scan leaves the orders table unchanged |
| Scanner.HandOverMarksOnlyThatOrder | src/app/admin/AdminScanner.tsx:78-84 | a hand-over sets `RETIRADO` and the delivery time on that order together and changes no other row |
| Scanner.SecondScanAlreadyDelivered | src/controllers/adminScannerController.ts:55-60 | after a hand-over, scanning the same ticket again is rejected as already delivered and writes nothing |
| Scanner.FreeUnitsWithinTotal | src/app/admin/AdminScanner.tsx:88-89 | the free units shown never exceed the total units |
| Scanner.PickupCountsMatchPurchase | src/controllers/adminScannerController.ts:63-66 | for a storefront order the terminal shows the quantity bought, with one free unit exactly when a reward was used |
| Scanner.Terminal.constructor | src/controllers/adminScannerController.ts:7-11 | the terminal starts waiting, with no timer and nothing shown |
| Scanner.Terminal.Decoded | src/app/admin/AdminScanner.tsx:33-41 | a decode with the camera on and a non-empty id starts processing that id; anything else changes nothing |
| Scanner.Terminal.Processed | src/controllers/adminScannerController.ts:48-85 | the orders table becomes `Redeem`'s; success shows the counts, rejection shows that flow's message, and both arm the restart timer |
| Scanner.Terminal.Restart | src/controllers/adminScannerController.ts:87-95 | cancels the timer, clears info and error, and returns to waiting with the camera on |
| Scanner.Terminal.RestartTimerFires | src/app/admin/AdminScanner.tsx:105-107 | a pending timer resets the terminal; with none pending nothing changes |
| Scanner.Terminal.Unmount | src/app/admin/AdminScanner.tsx:122-126 | leaves no timer pending |
| Lifecycle.StepKeepsConsistent | src/models/services/adminScannerService.ts:21-28 | every write keeps order ids unique and every `RETIRADO` order stamped with its delivery time |
| Lifecycle.DeliveredOnlyByPickup | src/controllers/adminScannerController.ts:55-60 | an order becomes `RETIRADO` only by a pickup scan of that order while it was `PAGO`; a new order is never born delivered |
| Lifecycle.PaidOnlyByPayment | src/models/services/adminService.ts:28-35 | an existing order becomes `PAGO` only by admin approval or the webhook; a new one is born `PAGO` only with total 0 |
| Lifecycle.ApprovalIdempotent | src/models/services/adminService.ts:28-35 | approving twice is approving once |
| Lifecycle.WebhookPaysChargedOrder | supabase/functions/webhook-pix/index.ts:16-37 | an approved notice pays the order charged under that payment id and touches no order charged under another |
| Lifecycle.PaidOrderCourse | supabase/functions/webhook-pix/index.ts:27-36 | placing, charging, the approved notice and the pickup scan take a new paid order to `RETIRADO` at the scan time, leaving other orders as they were |
| Lifecycle.PlaceIsRun | src/controllers/homeController.ts:96-144 | the checkout's order table, in both copies and whichever writes fail, is the run of its own events: the insert, then the stored charge and the QR update when they happen |
| Lifecycle.PlaceKeepsConsistent | src/controllers/homeController.ts:96-144 | a checkout with a fresh order id keeps ids unique and every `RETIRADO` order stamped |
| Lifecycle.NoticeAfterPickupReopensOrder | supabase/functions/webhook-pix/index.ts:33-36 | a payment notice after pickup sets a `RETIRADO` order back to `PAGO`, and the terminal then hands it over again |
| Admin.TodayOrders | src/controllers/adminController.ts:53-56 | keeps exactly today's `PAGO`/`RETIRADO` orders |
| Admin.LabelledMembers | src/controllers/adminController.ts:123-124 | a bucket holds exactly the `PAGO`/`RETIRADO` orders whose creation day carries the label |
| Admin.Chart | src/controllers/adminController.ts:118-128 | seven buckets labelled from six days ago to today |
| Admin.PendingNeverCounts | src/controllers/adminController.ts:54-55 | an order that is neither `PAGO` nor `RETIRADO` changes neither revenue, bag count nor any chart bucket |
| Admin.TodayBucketIsRevenue | src/app/admin/page.tsx:168-190 | today's bar equals today's revenue whenever no sold order in the table was created on another day carrying today's label |
| Admin.SameDateLastYearInflatesToday | src/controllers/adminController.ts:118-128 | the `dd/mm` labels ignore the year: a sold order from the same date a year earlier is added to today's bar but not to today's revenue |
| Admin.ApprovalAddsToRevenue | src/app/admin/page.tsx:100-118 | approving a pending order created today adds exactly its total to today's revenue |
| Admin.Dashboard.constructor | src/controllers/adminController.ts:27-37 | the panel's initial state |
| Admin.Dashboard.Reload | src/controllers/adminController.ts:39-67 | sets orders, products, revenue and bags from the tables when both queries answer; the hook alerts on a failure, and the page keeps the orders it got and stops |
| Admin.Dashboard.Approve | src/controllers/adminController.ts:74-82 | declining changes nothing; otherwise the order is set `PAGO` whatever its status and the panel reloads from the new table with `Reload`'s whole outcome (orders, products, revenue, bags, alert, loading), or an update error alerts (hook) or is ignored (page) and the panel is kept |
| Admin.Dashboard.OpenModal | src/controllers/adminController.ts:85-94 | opens the modal with the product's fields copied, or a blank form (empty name, 0, 0, active) |
| Client.BadgeClassification | src/app/cliente/page.tsx:230-264 | each badge names exactly one kind of order: free and paid, paid, delivered, pending, or any other status as cancelled |
| Client.ShownTicketIsAccepted | src/app/cliente/page.tsx:500-517 | a ticket is shown only for `PAGO`; the terminal reads back its id and hands that order over |
| Client.ClientArea.constructor | src/app/cliente/page.tsx:32-48 | the area's initial state |
| Client.ClientArea.Load | src/controllers/clientController.ts:33-62 | a failed session read loads nothing and does not redirect (hook) or counts as no session (page); without a session, redirects without fetching and keeps the profile; otherwise shows the profile and the customer's orders, with redeemed units and balance at price 1 and threshold 2; the items-query failure differs between hook and page |
| Client.ClientArea.PhoneChanged | src/controllers/clientController.ts:178-184 | the field becomes the mask of the input: at most 15 characters, keeping the first 11 digits |
| Client.ClientArea.CopyPix | src/controllers/clientController.ts:186-190 | marks exactly that order as copied and starts one more clearing timer |
| Client.ClientArea.CopyTimerFires | src/controllers/clientController.ts:189 | a pending timer clears the mark, whichever order it was started for |
| Auth.Digits | src/controllers/authController.ts:21 | keeps only digits, never lengthening the text |
| Auth.MaskKeepsDigits | src/controllers/authController.ts:21-25 | the digits of the masked text are exactly the first min(11, n) digits typed |
| Auth.MaskLength | src/controllers/authController.ts:24-25 | the masked text is at most 15 characters: the digits plus 3 after two digits, plus 4 after seven |
| Auth.MaskShape | src/app/login/page.tsx:32-45 | up to two digits are shown as typed; from three on they start with `(DD) `; from eight on a `-` follows the seventh digit, and there is no dash otherwise |
| Auth.MaskIdempotent | src/controllers/authController.ts:20-28 | masking a masked number changes nothing |
| Auth.MaskedPhoneKeepsTenDigits | src/app/cliente/page.tsx:214-220 | ten or more digits typed leave ten or more digits in the field |
| Auth.TrimRemovesOnlyEnds | src/controllers/authController.ts:37 | `trim()` removes only white space from both ends and leaves none at either end |
| Auth.NameCheck | src/controllers/authController.ts:37 | the name passes exactly when a space remains inside the trimmed name |
| Auth.ValidationRules | src/controllers/authController.ts:36-53 | the form is accepted iff every rule of its mode holds; login ignores name and phone; each message is reported only when all earlier rules passed |
| Auth.TranslationCases | src/controllers/authController.ts:62-70 | the two known service phrases become their Portuguese texts, credentials first; any other message is shown as is; an empty one gets the generic text |
| Auth.AuthForm.constructor | src/controllers/authController.ts:8-17 | the form's initial state |
| Auth.AuthForm.PhoneChanged | src/controllers/authController.ts:20-28 | the phone field becomes the mask of the input |
| Auth.AuthForm.HandleAuth | src/app/login/page.tsx:47-102 | a failed check sets its message and makes no call; otherwise sign-in or sign-up is called with the fields; only success navigates home; loading ends cleared |

## Left out

- Rendering, styling, animation, routing and the install button: they hold no logic beyond showing state.
- Network calls, the auth service and the database are outcome parameters, such as `Backend`, `Lookup`, `ordersOk` or a reply message. Query ordering (`order("created_at")`, `order("nome")`) is not modelled. The spent sum is proved independent of row order (`SpentOrderIndependent`); the other properties are filters and sums over whatever rows the query returns, stated for the order the model keeps.
- `.single()` on a missing row is an error in the database client, not an empty row. The caller therefore passes a missing row as `LookupError`, and on the hook's scanner path that error message is reported, so a missing order there is `LookupFailed`. `LookupOk` with the id absent stands for the hook's own `if (!pedido)` guard, which `.single()` never reaches; `Redeem` keeps that branch as written. The library's message text is not modelled.
- The `criar-pix` and `webhook-pix` functions are reduced to their outcomes:
  - a charge reference and copy-paste code written on the order, or a refusal;
  - an "approved" notice that sets `PAGO` by payment id.
- Realtime channels, which only refresh the screen when an order becomes `PAGO`, are not modelled.
- Clocks: the hour, today's day number and the scan time are parameters. Dates, locale formatting, `toLocaleString` and `toFixed` are not modelled.
- Admin.Chart: labels come from a caller-supplied `dayLabel` function, since `toLocaleDateString` is not modelled. `TodayBucketIsRevenue` therefore assumes that no sold order in the table from another day carries today's label; `SameDateLastYearInflatesToday` shows what happens otherwise.
- Float money: totals are integer cents. `Number(...)` conversions of text columns are taken as exact.
- Timers: only the pending flag (terminal restart) or the count of pending clears (copy mark) is kept, not durations.
- Camera and QR decoding, the clipboard, the canvas ticket download (`baixarTicket`), the avatar upload, the profile update, logout and the password-visibility toggle are not modelled.
- The storefront's own `copiarPix` (a clipboard write and a timed flag) is not modelled.
- Product save and delete (`salvarProduto`, `deletarProduto`) are plain writes of the form to `produtos` and are not modelled. The form state they read is modelled by `OpenModal`.
- Concurrency:
  - two terminals scanning the same ticket;
  - a restart pressed while a scan is processing;
  - a reload overlapping an approval.
  The model runs every operation to completion, one at a time.
- Auth.Validate: lengths are counted in Unicode code points. JavaScript counts UTF-16 code units, so a password containing characters outside the Basic Multilingual Plane can pass here with fewer than 8 characters.
- Auth.IsDigit: `\D` is taken as ASCII `0`–`9`, as in JavaScript without the `u` flag.
- Loyalty.Balance: it requires a positive unit price, because JavaScript would divide by zero into `Infinity` or `NaN`.
- Checkout.Storefront.LoadInitial: a product priced at 0 leaves the balance as it was, instead of the `NaN`/`Infinity` the source would compute. A failed product query is modelled as no active product, which is what both copies end with; the hook's distinction of the "no rows" error code is not modelled.
- Checkout.Storefront.Checkout: product stock is never written, in the model as in the source. The fresh order id the database generates is a parameter that must not already be in use.
- Lifecycle.NoticeAfterPickupReopensOrder: the approval and the webhook update the status whatever its current value. This lemma records that behaviour as written. The rest of the model keeps it too, so `DeliveredOnlyByPickup` and `StepKeepsConsistent` do not claim that `RETIRADO` is final.
