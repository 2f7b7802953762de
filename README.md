# CoopCycle core logic in Dafny

This project models five pieces of the CoopCycle delivery platform and
proves what each of them promises.

- **Stripe payment manager** (`stripe_manager.dfy`, module `Stripe`). It decides which connected
  Stripe account a payment is tied to. It then builds the request for one of two fee splits:
  - a *direct charge* on the restaurant's account, where the marketplace keeps `feeTotal` as an
    application fee;
  - a *destination charge* on the platform, where the restaurant receives `total − feeTotal`.

  It also sends the authorize, capture and refund requests. The processor's SDK is a `Gateway`
  object. It records every request and keeps the set of captured charges.
- **Reusable-packaging deposit processor** (`deposit_refund.dfy`, module `DepositRefund`). This
  is the behaviour its test fixes. An order from a restaurant that takes deposits, and whose
  order uses reusable packaging, loses its old deposit and give-back adjustments. Each item then
  gets its deposit, and the order gets one deposit adjustment equal to their sum. The price of
  an item's deposit is a parameter (`ItemRule`), and the packaging unit is counted in halves.
  Two rounded rules match the prices in the processor's test fixture; no proportional rule, rounded down, does.
- **Delivery serializer** (`delivery_normalizer.dfy`, module `Delivery`). It reads a delivery's
  pickup and dropoff from request data:
  - a time slot "YYYY-MM-DD HH:MM-HH:MM", else `before`, else `doneBefore`;
  - an address as an IRI, as text to geocode, or as an object with a `latLng` fallback.

  It writes a delivery out with each task reduced to its id, address and ATOM deadline. The
  inner item normalizer, the geocoder, the IRI converter and PHP's date parser are function
  values in a `Collaborators` record.
- **Dashboard context menu** (`context_menu.dfy`, module `ContextMenu`):
  - which selected tasks a multiple unassign releases;
  - which unassign actions the right-click menu offers, and what it shows;
  - how released tasks are grouped by courier, with one removal dispatched per courier.
- **Dashboard map proxy** (`map_proxy.dfy`, module `DashboardMap`):
  - the icon and color tables for task markers;
  - the proxy's caches of task markers, task popups, courier markers and polyline layer groups.

  Leaflet and React objects are handle classes. They keep only what the proxy sets on them.

`values.dfy` (module `Values`) holds the shared option and result types. It also holds the
PHP-array value type and PHP's array union.

Three behaviours of the source are kept as they are:
- The destination-charge branch of the intent payload is reachable only when the payment
  already had an account id before `createIntent`. `configurePayment` sets the id only in
  direct-charge mode. In that case the request options name the same account as the transfer.
- `capture` on the intent path sends `amount_to_capture` without any already-captured check.
- `removeTask` forgets only the marker. The task's popup stays cached.

## Model

| member | source | states |
|---|---|---|
| Values.ArrayUnion | src/AppBundle/Service/StripeManager.php:75 | PHP's `$payload + $attrs`: every key of either side; the left operand's value wins where both have one |
| Stripe.ToLower | src/AppBundle/Service/StripeManager.php:89 | `strtolower`: same length, each character lower-cased |
| Stripe.ToLowerIdempotent | src/AppBundle/Service/StripeManager.php:89 | the currency sent has no upper-case letter, and lower-casing it again changes nothing |
| Stripe.ConfiguredUserId | src/AppBundle/Service/StripeManager.php:18-33 | no restaurant: id unchanged; an account for the current mode and a restaurant that pays the fee: that account's id; the id changes only in that case |
| Stripe.StripeManager.ConfigurePayment | src/AppBundle/Service/StripeManager.php:18-33 | the payment's account id becomes `ConfiguredUserId` of its old id; nothing else changes |
| Stripe.StripeOptions | src/AppBundle/Service/StripeManager.php:35-45 | `stripe_account` is present iff the payment has an account id, holds that id, and is the only possible key |
| Stripe.ConfigureCreateIntentPayload | src/AppBundle/Service/StripeManager.php:47-76 | unchanged for a cart or without an account id; otherwise every payload key is kept, and exactly one key is added: `application_fee_amount = feeTotal` when the restaurant pays the fee, else `transfer_data` |
| Stripe.IntentBasePayload | src/AppBundle/Service/StripeManager.php:87-101 | (by `IntentBasePayloadKeys`) exactly amount, lower-cased currency, "Order n", payment method, manual confirmation and confirm=true, plus `capture_method = manual` iff automatic capture is off |
| Stripe.IntentRequest | src/AppBundle/Service/StripeManager.php:103-108 | (by `IntentPayloadKeepsBase`, `FreshPaymentNeverTransfers`, `DirectChargeIntent`, `PresetAccountDestinationIntent`) the intent creation sent: the base payload with the fee split of the configured id, and options naming that id |
| Stripe.IntentPayloadKeepsBase | src/AppBundle/Service/StripeManager.php:87-101 | the intent payload always has amount, lower-cased currency, "Order n", payment method, manual confirmation and confirm=true; `capture_method='manual'` iff automatic capture is off |
| Stripe.FreshPaymentNeverTransfers | src/AppBundle/Service/StripeManager.php:103-105 | from a payment with no account id, `createIntent` never sends `transfer_data` |
| Stripe.DirectChargeIntent | src/AppBundle/Service/StripeManager.php:103-108 | with an account and a restaurant that pays the fee: the request acts on the restaurant's account, with application fee `feeTotal` and no transfer |
| Stripe.PresetAccountDestinationIntent | src/AppBundle/Service/StripeManager.php:65-72 | with an account id already on the payment and a restaurant that does not pay the fee: a transfer of `total − feeTotal` to that id, no application fee, and options naming the same id |
| Stripe.DestinationChargeExample | src/AppBundle/Service/StripeManager.php:68-71 | a total of 1000 with a fee of 150 transfers 850 |
| Stripe.StripeManager.CreateIntent | src/AppBundle/Service/StripeManager.php:81-111 | configures the payment, then sends exactly one intent creation built from the configured id; the API key is set and no charge is captured |
| Stripe.StripeManager.ConfirmIntent | src/AppBundle/Service/StripeManager.php:116-130 | fails, sending nothing, iff the payment has no intent id; otherwise sends exactly one confirmation of that intent, with the account options |
| Stripe.AuthorizeRequest | src/AppBundle/Service/StripeManager.php:150-184 | (by `AuthorizeFeeSplit`) the charge sent by `authorize`: never captured; a fee split iff the restaurant has an account; direct or destination charge by the contract |
| Stripe.AuthorizeFeeSplit | src/AppBundle/Service/StripeManager.php:147-184 | the charge never captures; a fee split is present iff the restaurant has an account; direct charge (on the account, application fee) or destination charge (`total − feeTotal`, no options) by the contract |
| Stripe.StripeManager.Authorize | src/AppBundle/Service/StripeManager.php:135-185 | fails with "No Stripe token provided" and sends nothing without a token; fails without a restaurant; otherwise sends the charge and sets the id only in direct-charge mode |
| Stripe.StripeManager.Capture | src/AppBundle/Service/StripeManager.php:190-223 | the intent path captures `amount_to_capture = amount` unconditionally; an already-captured charge fails with "Charge already captured" and sends nothing; any other charge is captured |
| Stripe.CaptureTwice | src/AppBundle/Service/StripeManager.php:209-220 | a second capture of the same charge always fails with "Charge already captured" |
| Stripe.RefundArgs | src/AppBundle/Service/StripeManager.php:243-254 | keys are `charge` and `refund_application_fee`, plus `amount` iff an amount is given and differs from the payment's; with their values |
| Stripe.FullRefundSendsNoAmount | src/AppBundle/Service/StripeManager.php:247-252 | no amount is sent iff none is given or it equals the payment's amount |
| Stripe.StripeManager.Refund | src/AppBundle/Service/StripeManager.php:228-257 | sends exactly one refund, with `RefundArgs` and `stripe_account` iff the payment has an account id |
| DepositRefund.Order.RemoveAdjustmentsRecursively | tests/AppBundle/Sylius/OrderProcessing/OrderDepositRefundProcessorTest.php:143-148 | the order and every item lose exactly the adjustments of the given type, the rest keeping their order |
| DepositRefund.Order.RemoveDeposits | tests/AppBundle/Sylius/OrderProcessing/OrderDepositRefundProcessorTest.php:143-148 | the deposit removal, then the give-back removal: the order and every item keep exactly their other adjustments, in order |
| DepositRefund.OrderItem.AddAdjustment | tests/AppBundle/Sylius/OrderProcessing/OrderDepositRefundProcessorTest.php:169-181 | the item's adjustments gain exactly the given one, at the end |
| DepositRefund.Order.AddAdjustment | tests/AppBundle/Sylius/OrderProcessing/OrderDepositRefundProcessorTest.php:185-188 | the order's adjustments gain exactly the given one, at the end |
| DepositRefund.WithoutKindMembers | tests/AppBundle/Sylius/OrderProcessing/OrderDepositRefundProcessorTest.php:143-148 | an adjustment survives removal iff it was there and is of another type |
| DepositRefund.WithoutKindIdempotent | tests/AppBundle/Sylius/OrderProcessing/OrderDepositRefundProcessorTest.php:143-148 | removing a type twice is removing it once |
| DepositRefund.WithoutKindCommutes | tests/AppBundle/Sylius/OrderProcessing/OrderDepositRefundProcessorTest.php:143-148 | the two removals can happen in either order |
| DepositRefund.DepositKindsGone | tests/AppBundle/Sylius/OrderProcessing/OrderDepositRefundProcessorTest.php:143-148 | after both removals no deposit or give-back adjustment is left |
| DepositRefund.ProcessedItemIdempotent | tests/AppBundle/Sylius/OrderProcessing/OrderDepositRefundProcessorTest.php:143-148 | processing an item twice leaves the same adjustments as once: no duplicate deposits |
| DepositRefund.ProcessedOrderIdempotent | tests/AppBundle/Sylius/OrderProcessing/OrderDepositRefundProcessorTest.php:143-148 | processing the order twice leaves the same order-level adjustments as once |
| DepositRefund.ProcessedItemDeposit | tests/AppBundle/Sylius/OrderProcessing/OrderDepositRefundProcessorTest.php:167-179 | after processing, an item's deposit adjustments add up to its deposit amount |
| DepositRefund.ProcessedOrderDeposit | tests/AppBundle/Sylius/OrderProcessing/OrderDepositRefundProcessorTest.php:184-188 | after processing, the order's own deposit adjustments add up to the deposit total |
| DepositRefund.ItemsKindTotalIsDepositTotal | tests/AppBundle/Sylius/OrderProcessing/OrderDepositRefundProcessorTest.php:184-188 | items each holding their deposit sum to the deposit total |
| DepositRefund.DepositsAddUp | tests/AppBundle/Sylius/OrderProcessing/OrderDepositRefundProcessorTest.php:184-188 | the order-level deposit equals the sum of the item-level deposits |
| DepositRefund.AddItemDeposits | tests/AppBundle/Sylius/OrderProcessing/OrderDepositRefundProcessorTest.php:167-182 | each item gets its deposit adjustment appended, and the returned total is their sum |
| DepositRefund.ApplyDeposits | tests/AppBundle/Sylius/OrderProcessing/OrderDepositRefundProcessorTest.php:143-188 | items end as old adjustments without deposits plus their deposit; the order ends as its old adjustments without deposits, plus the total, plus a give-back when the customer has units |
| DepositRefund.Process | tests/AppBundle/Sylius/OrderProcessing/OrderDepositRefundProcessorTest.php:70-190 | nothing changes without a restaurant, with deposits disabled, or with reusable packaging off; otherwise as `ApplyDeposits`, and the order deposit equals the sum of the item deposits |
| DepositRefund.GiveBackIsCapped | tests/AppBundle/Sylius/OrderProcessing/OrderDepositRefundProcessorTest.php:128-131 | no give-back without units; a give-back is never positive and never exceeds the deposits |
| DepositRefund.RoundedRulesFitTests | tests/AppBundle/Sylius/OrderProcessing/OrderDepositRefundProcessorTest.php:167-179 | both `100 × ⌈qty × unit⌉` and `100 × qty × ⌈unit⌉` give 100 for (1, 0.5) and 200 for (2, 1) |
| DepositRefund.NoProportionalRuleFitsTests | tests/AppBundle/Sylius/OrderProcessing/OrderDepositRefundProcessorTest.php:167-179 | no price per packaging, not even a rational one rounded down, proportional to qty × unit gives both 100 and 200 |
| DepositRefund.TwoItemOrderScenario | tests/AppBundle/Sylius/OrderProcessing/OrderDepositRefundProcessorTest.php:123-190 | with any rule fitting the test points, the test's order gets item deposits 100 and 200, an order deposit of 300 and no give-back |
| Delivery.Split | src/AppBundle/Serializer/DeliveryNormalizer.php:82-85 | `explode`: at least one piece, and no piece contains the separator; with `JoinSplit` and `SplitJoin`, the inverse of joining |
| Delivery.JoinSplit | src/AppBundle/Serializer/DeliveryNormalizer.php:82-85 | `explode` loses nothing: joining the pieces gives the string back |
| Delivery.SplitJoin | src/AppBundle/Serializer/DeliveryNormalizer.php:82-85 | `explode` undoes joining pieces that contain no separator |
| Delivery.ParseTimeSlot | src/AppBundle/Serializer/DeliveryNormalizer.php:77-85 | a slot is read only from a string that starts with its YYYY-MM-DD date and a space |
| Delivery.ParseClock | src/AppBundle/Serializer/DeliveryNormalizer.php:84-85 | (by `ParseFormatClock`) "HH:MM" reads as that hour and minute |
| Delivery.ParseFormatClock | src/AppBundle/Serializer/DeliveryNormalizer.php:84-85 | "HH:MM" reads back as the same hour and minute |
| Delivery.ParseFormatTimeSlot | src/AppBundle/Serializer/DeliveryNormalizer.php:77-85 | every slot written as "YYYY-MM-DD HH:MM-HH:MM" reads back as itself |
| Delivery.Atom | src/AppBundle/Serializer/DeliveryNormalizer.php:46 | (by `ParseAtomOfAtom` and `AtomOfParseAtom`) `DateTime::ATOM` formatting: 25 characters, and the inverse of `ParseAtom` on valid date-times |
| Delivery.ParseAtomOfAtom | src/AppBundle/Serializer/DeliveryNormalizer.php:46 | a valid date-time is written in ATOM format on 25 characters and reads back as itself |
| Delivery.AtomOfParseAtom | src/AppBundle/Serializer/DeliveryNormalizer.php:46 | every ATOM string is exactly how the date-time it reads as is written |
| Delivery.DenormalizeAddress | src/AppBundle/Serializer/DeliveryNormalizer.php:122-132 | the inner address, whose coordinates are replaced by `latLng` only when it has none |
| Delivery.DenormalizedTask | src/AppBundle/Serializer/DeliveryNormalizer.php:71-120 | an error iff a time slot is given and malformed; without an `address` key the address is kept; without a time slot the start is kept |
| Delivery.ResolveAddress | src/AppBundle/Serializer/DeliveryNormalizer.php:104-119 | (by `AddressDispatch`) the address an `address` entry resolves to, through the IRI converter, the geocoder or the inner normalizer, or none |
| Delivery.TimeSlotSetsWindow | src/AppBundle/Serializer/DeliveryNormalizer.php:77-94 | a slot "D H1:M1-H2:M2" sets the start to D at H1:M1:00 and the deadline to D at H2:M2:00, whatever `before` or `doneBefore` say |
| Delivery.BeforeWinsOverDoneBefore | src/AppBundle/Serializer/DeliveryNormalizer.php:96-98 | without a slot, `before` sets the deadline whatever `doneBefore` says, and the start is kept |
| Delivery.DoneBeforeLast | src/AppBundle/Serializer/DeliveryNormalizer.php:99-102 | with neither slot nor `before`, `doneBefore` sets the deadline if given, else both times are kept |
| Delivery.AddressDispatch | src/AppBundle/Serializer/DeliveryNormalizer.php:104-119 | text starting with the Address IRI goes to the IRI converter, other text to the geocoder, an object to the inner normalizer, and any other value clears the address |
| Delivery.DenormalizeTask | src/AppBundle/Serializer/DeliveryNormalizer.php:71-120 | the task's new state is `DenormalizedTask` of its old one; a malformed slot fails and changes nothing |
| Delivery.Denormalize | src/AppBundle/Serializer/DeliveryNormalizer.php:134-150 | dropoff data applied first, then pickup data; a task whose key is absent is untouched; a failure on the dropoff leaves the pickup untouched |
| Delivery.NormalizedTask | src/AppBundle/Serializer/DeliveryNormalizer.php:34-48 | exactly the keys id, address and doneBefore; doneBefore is an ATOM string that reads back as the task's deadline |
| Delivery.Normalize | src/AppBundle/Serializer/DeliveryNormalizer.php:50-64 | the inner output's keys, less a non-null `items`, plus pickup, dropoff and color; every other key, a null `items` included, keeps its value |
| ContextMenu.TasksToUnassignMembers | js/app/dashboard/components/ContextMenu.js:70-72 | a task is released iff it is selected and its `@id` is not among the unassigned tasks |
| ContextMenu.TasksToUnassignIsSublist | js/app/dashboard/components/ContextMenu.js:70-72 | the released tasks are a sublist of the selection, in selection order |
| ContextMenu.TasksToUnassign | js/app/dashboard/components/ContextMenu.js:70-72 | (by `TasksToUnassignMembers`, `TasksToUnassignIsSublist`, `TasksToUnassignCounts`) the selected tasks whose `@id` is not unassigned, in order |
| ContextMenu.TasksToUnassignCounts | js/app/dashboard/components/ContextMenu.js:70-72 | a task kept by the filter appears as often as it was selected; a task with an unassigned `@id` not at all |
| ContextMenu.MenuActions | js/app/dashboard/components/ContextMenu.js:20-40 | no trigger: no actions; UNASSIGN_SINGLE iff the trigger is not unassigned; UNASSIGN_MULTI iff the selection is non-empty, holds the trigger and something is released; at most two, each once, SINGLE first |
| ContextMenu.MenuItems | js/app/dashboard/components/ContextMenu.js:42-63 | exactly one item per offered entry: the disabled item alone iff no actions; the single item first when offered; a divider and the multiple item last when offered; nothing else |
| ContextMenu.AssignedSelectedTriggerIsReleased | js/app/dashboard/components/ContextMenu.js:31-38 | an assigned, selected trigger is itself released, so the multiple unassign's condition holds |
| ContextMenu.MenuOnAssignedSelectedTask | js/app/dashboard/components/ContextMenu.js:20-40 | the menu on an assigned, selected task is exactly [UNASSIGN_SINGLE, UNASSIGN_MULTI] |
| ContextMenu.SingleItemReleasesTrigger | js/app/dashboard/components/ContextMenu.js:45 | the single item dispatches one removal: the trigger, from its courier |
| ContextMenu.UnassignGroupsByCourier | js/app/dashboard/components/ContextMenu.js:12-15 | one removal per distinct courier, each with exactly that courier's tasks in order, and every task's courier gets one |
| ContextMenu.UnassignPartitions | js/app/dashboard/components/ContextMenu.js:12-15 | the removals together hold every task exactly as often as given |
| ContextMenu.Unassign | js/app/dashboard/components/ContextMenu.js:12-15 | (by `UnassignGroupsByCourier` and `UnassignPartitions`) `_.groupBy` by courier, then one removal per group: one per distinct courier, each with that courier's tasks in order |
| ContextMenu.AddToGroup | js/app/dashboard/components/ContextMenu.js:12-15 | (by `AddToGroupShape`, `AddToGroupDistinct`, `AddToGroupFilters`, `AddToGroupCovers`) every existing group keeps its place and courier, and only the task's courier's group gains the task, at its end |
| DashboardMap.TaskIcon | js/app/dashboard/components/MapProxy.js:30-50 | each icon iff its condition: cube for TODO+PICKUP, arrow-down for TODO+DROPOFF, check for DONE, remove for FAILED, ban for CANCELLED, question otherwise |
| DashboardMap.TaskColor | js/app/dashboard/components/MapProxy.js:10-28 | gray or a color of one of the task's or group's tags; the group's first tag when it has tags, else the task's first tag |
| DashboardMap.GroupTagsWin | js/app/dashboard/components/MapProxy.js:18-20 | while the group has tags, the task's own tags do not change the color |
| DashboardMap.UntaggedIsGray | js/app/dashboard/components/MapProxy.js:22-27 | a task without tags, alone or in its group, is '#777' |
| DashboardMap.MarkerColor | js/app/dashboard/components/MapProxy.js:88 | a non-empty marker color overrides the task's color; otherwise the task's color |
| DashboardMap.MapProxy.constructor | js/app/dashboard/components/MapProxy.js:70-83 | every cache starts empty |
| DashboardMap.MapProxy.AddTask | js/app/dashboard/components/MapProxy.js:85-132 | the marker shows the task's icon, color and position and is on the map; a cached marker and popup are reused and the caches unchanged; otherwise fresh ones are cached under the task's id |
| DashboardMap.MapProxy.HideTask | js/app/dashboard/components/MapProxy.js:134-139 | a cached marker leaves the map and keeps its icon, color and position; no cache and no other object changes |
| DashboardMap.MapProxy.RemoveTask | js/app/dashboard/components/MapProxy.js:141-143 | only the task's marker entry is removed; popups and every other cache unchanged |
| DashboardMap.MapProxy.GetPolylineLayerGroup | js/app/dashboard/components/MapProxy.js:145-154 | returns the courier's cached group, or caches and returns a fresh one; no other cache changes |
| DashboardMap.MapProxy.GetPolylineAsTheCrowFliesLayerGroup | js/app/dashboard/components/MapProxy.js:156-165 | the same for the straight-line groups |
| DashboardMap.GetPolylineLayerGroupTwice | js/app/dashboard/components/MapProxy.js:145-154 | two requests for a courier's group return the same group, and only that courier is added |
| DashboardMap.MapProxy.SetOnline | js/app/dashboard/components/MapProxy.js:242-249 | unknown courier: nothing changes; known: avatar icon at opacity 1, position and popup kept |
| DashboardMap.MapProxy.SetOffline | js/app/dashboard/components/MapProxy.js:251-258 | unknown courier: nothing changes; known: avatar icon at opacity 0.5, position and popup kept |
| DashboardMap.MapProxy.SetGeolocation | js/app/dashboard/components/MapProxy.js:260-281 | a new courier gets a fresh opaque marker, added to the couriers' layer and cached; a known courier's marker is only moved and its popup refreshed |

## Left out

- The payment processor's SDK is not modelled. `Gateway` records each request and keeps the captured flag of charges. The intent and charge objects returned to callers are not modelled. `Stripe::setApiKey` is the gateway's `apiKey` field.
- Every SDK call that gets a request through succeeds in the model. In the source, a declined card or a network error is an exception. That exception can come after `configurePayment` or `authorize` has already set `stripeUserId`. The model does not capture that partial update.
- Stripe.StripeManager.ConfirmIntent: a payment without an intent id fails before any request. In the source the SDK's retrieve call rejects the missing id.
- Stripe.RefundArgs: the amount is an integer. PHP's `(int)` cast of a non-integer amount is not modelled.
- Stripe.StripeManager.Authorize: an order without a restaurant fails. In the source this is a PHP error on a null restaurant, not a handled case.
- Stripe.StripeManager.Capture: a payment with neither an intent nor a charge id fails before any request. In the source the SDK's retrieve call rejects the missing id.
- The deposit processor's own source is not part of this model. Its behaviour is taken from its test.
- DepositRefund.Process: the item price rule and the customer's give-back credit are parameters. The test fixes neither beyond its two data points, and it does not fix the give-back amount. When a guard fails, existing adjustments are left as they are; the test does not say otherwise.
- Adjustment labels and the `neutral` flag are fixed values. The test accepts any string and any boolean for them.
- Delivery.DenormalizedTask: an hour above 23 or a minute above 59 is kept as given. PHP's `setTime` would carry the excess into the next day; the model does not.
- Delivery.DenormalizeTask: a time slot that does not match the pattern, or whose clock parts are missing or empty, is an error and leaves the task unchanged. In the source the slot is unvalidated, and PHP goes on with notices and null values.
- Delivery.Normalize: requires both tasks to have a deadline. The source calls `format` on it, which fails on null.
- The inner item normalizer, the geocoder, the IRI converter and `new \DateTime(...)` are function values. Their own behaviour is outside the model, including the converter's exception for an unknown IRI.
- A `latLng` entry that is not a pair of numbers is not modelled.
- `supportsNormalization` and `supportsDenormalization` are not modelled. Each only combines the inner normalizer's answer with a class test.
- PHP array key order and JavaScript object key order are not modelled. This includes lodash `groupBy` listing integer-like usernames first; the model keeps groups in order of first appearance.
- ContextMenu.UnassignGroupsByCourier: a task's `assignedTo` is a string. JavaScript's conversion of a null assignee to the key "null" is not modelled.
- React rendering, translations, `connect`, and `mapDispatchToProps` forwarding to Redux are not modelled.
- The Leaflet and React rendering in the map proxy is not modelled: icons, popups' DOM, polyline drawing and decorators. `setPolyline`, `setPolylineAsTheCrowFlies` and the four show/hide polyline methods only draw on or toggle the groups that the get-or-create methods return.
- DashboardMap.MapProxy.AddTask: coordinates are exact reals. Leaflet's `equals` margin of 1e-9 degrees is not modelled, so a cached marker always takes the task's exact position.
- DashboardMap.MapProxy.AddTask: the caches are filled when React's render callback runs. The model takes that as immediate. The popup's `updateTask` is modelled as replacing the task it shows.
