# Rocket Launchpad hosting storefront — a Dafny model of its core

Rocket Launchpad sells web hosting, VPS, domains and SSL certificates. This project models the parts of
the storefront that make decisions:

- the **PayU payment edge function**: it builds the checkout parameters and the SHA-512 request hash,
  checks the reverse hash of PayU's response, settles the order, and on success upgrades the
  buyer's plan, logs the upgrade and notifies the buyer;
- the **cart engine** kept in browser storage: catalogue lookup, merging lines by service, quantities,
  the clamped total, and the discount codes;
- the **order service** (the order built from the cart, the status update record, completing an order)
  and the **hosting-account service** (row mapping with defaults, the insert and update records, and
  the suspend, activate and terminate aliases);
- the **country, currency and tax tables**;
- the small client state machines: the **plan-finder quiz**, the **five-step data form wizard**, the
  **VPS configurator** buttons and sliders, the **domain search** page, the **role gate** in front of
  restricted pages, and the **dashboard** avatar initials and active-menu test.

Each source file is one module (`PayU`, `CartService`, `OrderService`, `HostingService`, `PriceUtils`,
`PlanFinderQuiz`, `DataFormWizard`, `VpsConfigurator`, `DomainSearch`, `RoleGate`, `DashboardLayout`).
`Common` holds JavaScript value helpers: truthiness, `||`, ASCII case mapping, `split`/`join` and
`Math.round`. `Tables` holds the backend rows and the `subscription_plan` enumeration.

How the source's form carries over:

- **State changed in place becomes a class.** The backend tables are the fields of a `Backend` object.
  The two browser-storage keys of the cart are the fields of a `CartStore`. The quiz, the wizard and
  the domain page are classes whose handlers are methods. Each method is specified by a pure function
  of the old state, and the properties are proved about those functions.
- **Pure expressions become functions on datatypes.** This covers the VPS updaters, the role gate,
  `getInitials` and the price tables.

What is abstracted:

- **SHA-512** is a caller-supplied `Hasher`, constrained only to return 64 bytes.
- **The outside world becomes parameters**: the transaction id, generated ids, clocks, `Math.random`,
  and whether a backend call fails.
- **Money is integers.** Cart prices are whole rupees, domain prices are cents, and tax rates are
  whole percentages.

Two details of the PayU hashing as the code writes it:

- **Hash fields.** PayU's published request-hash formula is
  `key|txnid|amount|productinfo|firstname|email|udf1|udf2|udf3|udf4|udf5||||||SALT`. The code leaves all
  ten slots after `email` empty: that is eleven `|` characters in a row, so `udf1`–`udf3` are sent beside
  the hash but are not covered by it. The reverse hash likewise has ten empty slots between `status`
  and `email`. The model follows the code.
- **Hash comparison.** The received hash is compared with exact, case-sensitive string equality
  (supabase/functions/payu-payment/index.ts:128).

## Model

| member | source | states |
|---|---|---|
| Common.OrElse | src/services/priceUtils.ts:3 | `a \|\| b` on an optional string yields the value only when it is truthy, otherwise the fallback; a non-empty fallback never gives "" |
| Common.Split | src/services/priceUtils.ts:4 | `split` with one separator gives at least one piece and no piece contains the separator |
| Common.JoinSplit | src/components/dashboard/DashboardLayout.tsx:126 | joining the pieces of a split with the same separator gives back the string |
| Common.SplitJoin | src/services/priceUtils.ts:4 | splitting a join of separator-free pieces recovers exactly those pieces |
| Common.RoundDiv | src/services/cartService.ts:216 | `Math.round` of an exact quotient is the nearest integer, halves rounded up |
| Tables.ParsePlan | src/integrations/supabase/types.ts:509 | a text is accepted as a plan exactly when it is one of the four enumeration names, and then names that plan |
| Tables.ParsePlanName | src/integrations/supabase/types.ts:509 | every plan's name parses back to that plan |
| Tables.TextColumn | src/services/orderService.ts:174-177 | a column named in an update record takes the given text, or is cleared by null; a column not named keeps its value |
| Tables.ApplyOrderUpdate | src/services/orderService.ts:174-177 | an update of an order row never changes its id, owner, plan, amount, currency, cycle or creation time |
| PayU.HexByte | supabase/functions/payu-payment/index.ts:93 | a byte renders as two lower-case hex digits, with a leading 0 below 16 |
| PayU.Hex | supabase/functions/payu-payment/index.ts:92-94 | the rendering of n bytes has 2n characters, all lower-case hex digits |
| PayU.HexValue | supabase/functions/payu-payment/index.ts:93 | a character has a digit value exactly when it is a lower-case hex digit, and that digit renders back as the character |
| PayU.UnhexHex | supabase/functions/payu-payment/index.ts:92-94 | decoding the hex rendering of any byte sequence gives back the bytes |
| PayU.HexInjective | supabase/functions/payu-payment/index.ts:92-94 | distinct digests have distinct renderings |
| PayU.DigestHex | supabase/functions/payu-payment/index.ts:91-94 | a SHA-512 digest renders as 128 lower-case hex characters |
| PayU.RequestHashSplits | supabase/functions/payu-payment/index.ts:88 | with no '\|' in any field, the request hash input splits into key, txnid, amount, productinfo, firstname, email, ten empty slots and the salt |
| PayU.RequestHashLayout | supabase/functions/payu-payment/index.ts:88 | the request hash input is exactly those seventeen fields joined by '\|' |
| PayU.ReverseHashSplits | supabase/functions/payu-payment/index.ts:120 | with no '\|' in any field, the reverse hash input splits into salt, status, ten empty slots, email, firstname, productinfo, amount, txnid and key |
| PayU.ReverseHashLayout | supabase/functions/payu-payment/index.ts:120 | the reverse hash input is exactly those eighteen fields joined by '\|' |
| PayU.ReverseMirrorsRequest | supabase/functions/payu-payment/index.ts:88-120 | the reverse hash lists the request hash's fields backwards, with the status after the salt |
| PayU.InitiateSpec | supabase/functions/payu-payment/index.ts:44-114 | `initiate` answers 200 or 500; a 500 writes nothing; a 200 adds exactly the new order id; profiles, activity and notifications never change |
| PayU.VerifySpec | supabase/functions/payu-payment/index.ts:116-193 | `verify` answers 200 exactly when the received hash equals the expected one, else 400 with nothing written; no order is created or removed; the activity log and notifications keep their old rows as a prefix |
| PayU.Handle | supabase/functions/payu-payment/index.ts:19-198 | the handler answers 200, 400 or 500; any non-200 answer leaves every table as it was; a preflight is a bare 200; no order ever disappears |
| PayU.Serve | supabase/functions/payu-payment/index.ts:19-198 | the handler's successive table writes and its response are those of the specification `Handle` |
| PayU.ServeInitiate | supabase/functions/payu-payment/index.ts:44-114 | `initiate` inserts the pending order, then records the txnid on it, as `InitiateSpec` describes |
| PayU.ServeVerify | supabase/functions/payu-payment/index.ts:116-193 | `verify` checks the reverse hash, settles the order unless that update fails, and on success reads the order back and writes profile, activity and notification, each read or write failing on its own without stopping the handler, as `VerifySpec` describes |
| PayU.CredentialsCheckedFirst | supabase/functions/payu-payment/index.ts:31-37 | without both merchant key and salt every POST is a 500 and no table changes |
| PayU.UnknownActionRejected | supabase/functions/payu-payment/index.ts:195-198 | any action other than `initiate` or `verify` is a 400 "Invalid action" and no table changes |
| PayU.CheckoutCreatesPendingOrder | supabase/functions/payu-payment/index.ts:44-114 | a successful `initiate` adds exactly one pending order under a new id, keeps every other order and table, records the txnid unless that update fails, and returns the request hash as 128 hex characters |
| PayU.CheckoutHashIgnoresUdf | supabase/functions/payu-payment/index.ts:72-88 | the request hash does not depend on udf1–udf3 (order id, user id, plan), which are sent beside it |
| PayU.ForgedResponseRejected | supabase/functions/payu-payment/index.ts:128-134 | a response whose hash is not exactly the expected one is a 400 with `success: false` and no table changes |
| PayU.UpperCaseHashRejected | supabase/functions/payu-payment/index.ts:128 | the comparison is case-sensitive: the upper-cased expected hash is rejected whenever it contains a letter |
| PayU.VerifiedResponseSettlesOrder | supabase/functions/payu-payment/index.ts:137-146 | a verified "success" makes the order paid with `paid_at` set; any other status makes it failed with `paid_at` cleared; other orders are untouched |
| PayU.UpgradeOnlyOnSuccess | supabase/functions/payu-payment/index.ts:153-185 | for a "success" response whose order exists and is read back, the owner's plan is set unless that update fails, one activity row (owner, "subscription_upgraded", plan, payment id) is appended unless that insert fails, and one "payment" notification naming the plan likewise; in every other case profiles and both logs are unchanged, and old log rows are always kept as a prefix |
| PayU.NotifiedWithoutUpgrade | supabase/functions/payu-payment/index.ts:153-185 | the write errors are ignored: with the profile update and the activity insert failing, the buyer is still notified and the response still reports success |
| PayU.VerifiedResponseFlag | supabase/functions/payu-payment/index.ts:148-192 | a verified response answers 200 with `success` equal to `status == "success"`, even when the order update failed |
| PayU.ReplayNotifiesTwice | supabase/functions/payu-payment/index.ts:153-185 | there is no replay guard: the same successful response delivered twice logs twice and notifies twice, unless the read-back or that insert fails |
| PayU.OrderIdNotAuthenticated | supabase/functions/payu-payment/index.ts:117-146 | udf1 is outside the reverse hash: changing it never changes whether a response verifies |
| CartService.ServiceFor | src/services/cartService.ts:117-121 | a service id has a service exactly when it is one of the catalogue's own entries; every service has a positive price and a monthly or yearly cycle |
| CartService.FindCode | src/services/cartService.ts:196 | the code found is a shipped code equal to the input once both are upper-cased; none found means no code matches |
| CartService.Recalculate | src/services/cartService.ts:100-108 | subtotal is the sum of line totals, total is subtotal minus discount clamped at 0; lines, discount, code and currency are kept |
| CartService.FirstMatch | src/services/cartService.ts:123 | `findIndex`: the first line matching the key, or -1 when no line matches |
| CartService.Without | src/services/cartService.ts:152 | the kept lines are exactly the lines whose id differs |
| CartService.Added | src/services/cartService.ts:123-143 | adding a service grows the cart by one line exactly when no line has that service, and otherwise keeps the line count; discount, code and currency are kept |
| CartService.Load | src/services/cartService.ts:64-89 | missing or unreadable storage reads as the empty INR cart |
| CartService.ItemCount | src/services/cartService.ts:251-254 | the item count of an empty cart is 0, and is never negative when no quantity is |
| CartService.DiscountAmount | src/services/cartService.ts:214-219 | a fixed code is worth its value; a percentage code is worth the subtotal times the percentage, rounded half up to a whole rupee |
| CartService.CodeApplied | src/services/cartService.ts:194-235 | an unknown code is refused; a refused code leaves the cart as it was; an accepted code keeps the lines and currency and records a code |
| CartService.CartStore.AddToCart | src/services/cartService.ts:110-148 | an unknown service throws "Service not found: id" and saves nothing; otherwise the merged-or-appended cart is saved and returned |
| CartService.CartStore.RemoveFromCart | src/services/cartService.ts:150-156 | the stored cart becomes the recalculated cart without the lines of that id |
| CartService.CartStore.UpdateCartItemQuantity | src/services/cartService.ts:158-173 | the stored cart becomes the cart with that line's quantity set, or without it when the quantity is not positive |
| CartService.CartStore.ClearCart | src/services/cartService.ts:179-192 | the empty INR cart is saved and the discount key is removed |
| CartService.CartStore.ApplyDiscountCode | src/services/cartService.ts:194-235 | an accepted code saves the discounted cart and the code; a refused code saves nothing |
| CartService.CartStore.RemoveDiscountCode | src/services/cartService.ts:237-249 | the saved cart has no discount or code, and the discount key is removed |
| CartService.CartStore.GetCartItemCount | src/services/cartService.ts:251-254 | the count is the sum of the stored lines' quantities |
| CartService.CartStore.CalculateCartTotal | src/services/cartService.ts:260-278 | a coupon is tried only when the stored cart has no code; the totals are those of the stored cart afterwards |
| CartService.AddMergesOrAppends | src/services/cartService.ts:123-143 | adding a service already present raises that line's quantity and keeps every other line; otherwise exactly one catalogue-priced line is appended; discount, code and currency never change |
| CartService.AddKeepsServicesUnique | src/services/cartService.ts:123-143 | adding never creates a second line for a service |
| CartService.AddCountsQuantity | src/services/cartService.ts:123-143 | adding q of a service raises the item count by exactly q |
| CartService.AddRaisesSubtotal | src/services/cartService.ts:123-145 | with consistently priced lines, adding raises the subtotal by unit price times quantity and keeps prices consistent |
| CartService.WithoutAppend | src/services/cartService.ts:152 | removal distributes over concatenation, so the kept lines keep their order |
| CartService.WithoutAbsent | src/services/cartService.ts:152 | removing an id no line carries leaves the lines as they were |
| CartService.WithoutKeepsInvariants | src/services/cartService.ts:150-156 | removal keeps line prices consistent and services unique |
| CartService.RemoveKeepsDiscount | src/services/cartService.ts:150-156 | removal keeps the discount, code and currency, leaves no line with that id, and recomputes the clamped total |
| CartService.UpdateNonPositiveRemoves | src/services/cartService.ts:162-165 | a quantity of 0 or less gives the same cart as `removeFromCart` |
| CartService.UpdateSetsQuantity | src/services/cartService.ts:158-173 | a positive quantity sets that line's quantity and total and keeps all other lines; an unknown id changes no line; discount and code are kept |
| CartService.CodeMatchIgnoresCase | src/services/cartService.ts:196-200 | applying a code upper-cased or lower-cased gives the same result; a refused code leaves the cart as it was |
| CartService.FindCodeCongruent | src/services/cartService.ts:196 | two codes equal once upper-cased find the same discount code |
| CartService.ApplyAcceptsExactly | src/services/cartService.ts:194-235 | a code is accepted exactly when it is known, the subtotal meets its minimum and it has not expired; then the cart carries its canonical code and discount, its lines, and a non-negative total |
| CartService.PercentageWithinSubtotal | src/services/cartService.ts:214-219 | a percentage of at most 100 off a non-negative subtotal is between 0 and the subtotal |
| CartService.ShippedCodesWellFormed | src/services/cartService.ts:58-62 | every shipped code is a positive fixed amount or a percentage of at most 100, and none expires |
| CartService.RemoveDiscountRestoresSubtotal | src/services/cartService.ts:237-249 | without a discount the total equals the subtotal when no line total is negative |
| CartService.EmptyCartIsEmpty | src/services/cartService.ts:179-192 | the empty cart has no lines, count 0, recalculates to itself, and is what missing storage reads as |
| CartService.CatalogueLookupAsWritten | src/services/cartService.ts:117 | the lookup as written finds a catalogue entry exactly for catalogue ids, but also finds inherited members |
| CartService.InheritedKeyPassesGuard | src/services/cartService.ts:117-121 | "constructor" is not a service, yet passes the `!service` guard as written |
| CartService.OwnLookupGuardExact | src/services/cartService.ts:117-121 | with own-entry lookup, an id is a service exactly when the guard as written passes and it is not an inherited name |
| OrderService.PlanFromItems | src/services/orderService.ts:39-45 | the plan is never free, and is starter when no line is a plan service |
| OrderService.FirstPlanLineWins | src/services/orderService.ts:39-45 | the first plan-service line decides the plan, whatever lines follow |
| OrderService.BillingCycle | src/services/orderService.ts:48 | the first line's cycle when it is non-empty, otherwise monthly |
| OrderService.ToOrder | src/services/orderService.ts:104-114 | falsy currency reads as INR and falsy status as pending; the cycle and paid time are the row's own when truthy and absent otherwise; a falsy creation time reads as the current time; identity, plan and amount are copied |
| OrderService.OrdersFrom | src/services/orderService.ts:91-119 | a failed query gives no orders; otherwise one mapped order per row, in order |
| OrderService.OrderOf | src/services/orderService.ts:124-153 | an order is found exactly when it exists and belongs to that user |
| OrderService.StatusRecord | src/services/orderService.ts:164-172 | the record always has status, has `paid_at` exactly when the status is paid, and has the payment id exactly when a non-empty one is given |
| OrderService.CreateOrderFromCart | src/services/orderService.ts:30-86 | an empty cart is refused before any insert; a failed or duplicate insert returns its error and writes nothing; otherwise one pending order row is inserted and returned with the cart's lines |
| OrderService.UpdateOrderStatus | src/services/orderService.ts:158-189 | true exactly when the backend reports no error; then the row, if present, receives the status record |
| OrderService.CompleteOrder | src/services/orderService.ts:194-200 | the order is marked paid, and the cart and discount are cleared only when that succeeded |
| OrderService.NewOrderIsPending | src/services/orderService.ts:50-61 | a new order is pending, priced at 100 times the cart total, for a paid tier, in the cart's currency |
| OrderService.PaidStatusStampsTime | src/services/orderService.ts:164-177 | marking paid sets `paid_at` and keeps the amount, plan and owner |
| OrderService.OtherStatusKeepsPaidAt | src/services/orderService.ts:164-177 | any other status leaves `paid_at` as it was |
| HostingService.ToAccount | src/services/hostingService.ts:44-56 | falsy domain absent, null plan the given default, null `is_active` active, null usage 0, falsy location us-east, falsy creation and update times the current time |
| HostingService.AccountsFrom | src/services/hostingService.ts:31-61 | a failed query gives no accounts; otherwise one account per row with plan defaulting to free |
| HostingService.AccountById | src/services/hostingService.ts:66-96 | an account is returned exactly when the query succeeds and the id exists |
| HostingService.InsertRow | src/services/hostingService.ts:104-113 | the insert is active with zero usage, plan defaulting to starter, location to us-east, owned by the user, with a generated name when none is given |
| HostingService.UpdateRecord | src/services/hostingService.ts:145-150 | name, plan and location appear exactly when truthy, domain whenever given, `updated_at` always, and nothing else |
| HostingService.ApplyHostingUpdate | src/services/hostingService.ts:152-155 | an update never changes the id, owner, creation time or usage counters |
| HostingService.OutcomeOf | src/services/hostingService.ts:157-162 | success exactly when there is no error, and the error is passed on |
| HostingService.CreateHostingAccount | src/services/hostingService.ts:101-135 | a failed or duplicate insert throws and writes nothing; otherwise the row is inserted and mapped with plan defaulting to starter |
| HostingService.UpdateHostingAccount | src/services/hostingService.ts:140-167 | the row, if present and the call succeeds, receives the update record; only the hosting table can change |
| HostingService.UpdateHostingAccountStatus | src/services/hostingService.ts:172-189 | the row, if present and the call succeeds, receives `is_active` and `updated_at` |
| HostingService.DeleteHostingAccount | src/services/hostingService.ts:194-211 | on success the row is gone, on failure the table is unchanged |
| HostingService.SuspendHostingAccount | src/services/hostingService.ts:216-218 | suspend is the status update to inactive |
| HostingService.ActivateHostingAccount | src/services/hostingService.ts:223-225 | activate is the status update to active |
| HostingService.TerminateHostingAccount | src/services/hostingService.ts:230-232 | terminate is the delete |
| HostingService.CreatedAccountReadsBack | src/services/hostingService.ts:101-135 | a new account reads back active with no usage, the requested or starter plan and location, a non-empty name, owned by its creator |
| HostingService.DefaultAccountReadsBack | src/services/hostingService.ts:101-135 | the call with the default argument `{ name: 'My Hosting' }` creates an active starter account "My Hosting" in us-east with no domain, owned by the caller |
| HostingService.PlanDefaultsDiffer | src/services/hostingService.ts:126 | a row without a plan reads as free but maps as starter after create; with a plan the two mappings agree |
| HostingService.UpdateChangesOnlyGivenFields | src/services/hostingService.ts:145-155 | an update changes name, plan and location exactly when truthy values were given, the domain whenever given, stamps `updated_at`, and keeps the activity flag |
| HostingService.StatusUpdateReadsBack | src/services/hostingService.ts:172-177 | after a status update an existing account reads as the requested activity, with only the flag and timestamp changed |
| HostingService.FailureWritesNothing | src/services/hostingService.ts:157-160 | a failed update leaves the table alone and reports failure with its error |
| PriceUtils.LocaleOf | src/services/priceUtils.ts:3 | the locale is never empty, falling back to en-US |
| PriceUtils.CountryFromLocale | src/services/priceUtils.ts:4-5 | the country is non-empty and has no lower-case letter |
| PriceUtils.DetectCountry | src/services/priceUtils.ts:1-9 | without a navigator the country is US; always non-empty and upper-case |
| PriceUtils.CurrencyFor | src/services/priceUtils.ts:11-22 | the table's currency for the seven listed codes, USD for any other |
| PriceUtils.TaxRatePercent | src/services/priceUtils.ts:24-30 | 18 exactly for IN, 20 exactly for the 27 member codes, otherwise 0 |
| PriceUtils.CountryIsSecondPart | src/services/priceUtils.ts:3-5 | the second '-'-separated part of a locale, upper-cased, is the country |
| PriceUtils.NoRegionIsUS | src/services/priceUtils.ts:5 | a locale without a region part gives US |
| PriceUtils.EuAliasUntaxed | src/services/priceUtils.ts:16-28 | EU has currency EUR but a tax rate of 0 |
| PriceUtils.LowerCaseCodeUnknown | src/services/priceUtils.ts:11-30 | a code with a lower-case letter gets USD and no tax |
| PriceUtils.IndianLocale | src/services/priceUtils.ts:1-30 | the locale en-in gives INR and 18% |
| VpsConfigurator.Decrease | src/pages/VPSHosting.tsx:256-362 | the minus button sets the resource to the larger of its minimum and the value less its step, and changes no other resource |
| VpsConfigurator.Increase | src/pages/VPSHosting.tsx:270-376 | the plus button sets the resource to the smaller of its maximum and the value plus its step, and changes no other resource |
| VpsConfigurator.Slide | src/pages/VPSHosting.tsx:266-372 | a slider value sets its resource and keeps a valid configuration valid |
| VpsConfigurator.InitialValid | src/pages/VPSHosting.tsx:71-76 | the initial configuration (2, 4, 80, 4) is within every range |
| VpsConfigurator.ButtonsKeepValid | src/pages/VPSHosting.tsx:256-376 | both buttons keep cpu in 1–16, ram in 1–64, storage in 20–1000 on a 20 GB grid, and bandwidth in 1–32 |
| VpsConfigurator.ButtonsInverse | src/pages/VPSHosting.tsx:256-376 | away from the bounds, minus undoes plus |
| VpsConfigurator.ButtonsIdleAtBounds | src/pages/VPSHosting.tsx:256-376 | pressing a button at its bound changes nothing |
| RoleGate.UserRole | src/components/auth/RequireRole.tsx:11 | the role is the truthy `role`, else the truthy `role_id`, else nothing |
| RoleGate.Decide | src/components/auth/RequireRole.tsx:8-22 | nothing is shown exactly while loading; a signed-out visitor goes to /auth; the page is shown only to a signed-in user; every redirect is to /auth or / |
| RoleGate.GateDecides | src/components/auth/RequireRole.tsx:12-22 | once loaded, the page is shown exactly to the admin e-mail and to signed-in users whose role is or contains the required role; others go to /auth when signed out, to / otherwise |
| RoleGate.LoadingShowsNothing | src/components/auth/RequireRole.tsx:8 | nothing is rendered while loading |
| RoleGate.RoleIdOnlyAsFallback | src/components/auth/RequireRole.tsx:11 | `role_id` makes no difference when `role` is truthy |
| RoleGate.NumericRoleRedirects | src/components/auth/RequireRole.tsx:16-22 | a non-zero numeric role never grants access |
| DashboardLayout.FirstChars | src/components/dashboard/DashboardLayout.tsx:126 | at most one character per part; when no part is empty, exactly the first character of each part, in order |
| DashboardLayout.FirstCharsAppend | src/components/dashboard/DashboardLayout.tsx:126 | the `map` works part by part: first characters of a concatenation are the concatenation of first characters |
| DashboardLayout.Initials | src/components/dashboard/DashboardLayout.tsx:124-127 | a missing or empty name gives "U"; the result has at most two characters and no lower-case letter |
| DashboardLayout.WordsInitials | src/components/dashboard/DashboardLayout.tsx:124-127 | for any name of one or more non-empty words joined by single spaces, the initials are the first letters of the first two words (of the only word), upper-cased |
| DashboardLayout.TwoWordInitials | src/components/dashboard/DashboardLayout.tsx:126 | two space-free words give their first letters, upper-cased |
| DashboardLayout.OneWordInitial | src/components/dashboard/DashboardLayout.tsx:126 | a one-word name gives its first letter, upper-cased |
| DashboardLayout.SpacesGiveNoInitials | src/components/dashboard/DashboardLayout.tsx:126 | a name of spaces only gives "", not "U" |
| DashboardLayout.EmptyPartsNoChars | src/components/dashboard/DashboardLayout.tsx:126 | empty parts contribute no characters |
| DashboardLayout.AtMostOneActive | src/components/dashboard/DashboardLayout.tsx:46-58 | the sidebar urls are distinct, so at most one entry is active for any path |
| DashboardLayout.IsActive | src/components/dashboard/DashboardLayout.tsx:81 | an entry can be active only for a path of the same length as its url, so never for a sub-page |
| DashboardLayout.NoPrefixMatch | src/components/dashboard/DashboardLayout.tsx:81 | for every url, no longer path starting with it (a sub-page) activates that entry |
| PlanFinderQuiz.Recommend | src/components/home/PlanFinderQuiz.tsx:162-168 | starter exactly up to 5, business exactly for 6–9, cloud exactly for 10–13, VPS exactly above 13 |
| PlanFinderQuiz.Score | src/components/home/PlanFinderQuiz.tsx:163 | holes add nothing, so unanswered questions score 0, and answers of 1 to 4 score between 0 and four times the number of positions |
| PlanFinderQuiz.WithAnswer | src/components/home/PlanFinderQuiz.tsx:134-135 | writing answer i sets it and keeps every other answer; positions skipped over become holes |
| PlanFinderQuiz.OptionValuesInRange | src/components/home/PlanFinderQuiz.tsx:34-75 | every option value is 1 to 4 |
| PlanFinderQuiz.Quiz.SelectOption | src/components/home/PlanFinderQuiz.tsx:132-137 | highlights the option and records its value as the current step's answer; the step is unchanged |
| PlanFinderQuiz.Quiz.Next | src/components/home/PlanFinderQuiz.tsx:139-146 | below the last question advances and clears the selection; at the last question shows the result; answers kept |
| PlanFinderQuiz.Quiz.Back | src/components/home/PlanFinderQuiz.tsx:148-153 | goes back one question and clears the selection, or does nothing on the first |
| PlanFinderQuiz.Quiz.Restart | src/components/home/PlanFinderQuiz.tsx:155-160 | back to the first question with no answers, no selection and no result |
| PlanFinderQuiz.Quiz.RecommendedPlan | src/components/home/PlanFinderQuiz.tsx:162-168 | the recommendation for the answers' score, which is between 4 and 16 |
| PlanFinderQuiz.RecommendMonotone | src/components/home/PlanFinderQuiz.tsx:162-168 | a higher score never recommends a cheaper tier |
| PlanFinderQuiz.ScoreWithAnswer | src/components/home/PlanFinderQuiz.tsx:132-137 | answering a question replaces its previous contribution to the score |
| PlanFinderQuiz.ScoreBounds | src/components/home/PlanFinderQuiz.tsx:163 | n answers in 1–4 without holes score between n and 4n |
| PlanFinderQuiz.FullScoreInRange | src/components/home/PlanFinderQuiz.tsx:34-75 | four answers score 4 to 16 |
| PlanFinderQuiz.TiersReachable | src/components/home/PlanFinderQuiz.tsx:162-168 | every score from 4 to 16 comes from four answers of 1 to 4, so each of the four tiers is recommended for some complete set of answers |
| DataFormWizard.WithTag | src/components/data-management/DataFormWizard.tsx:107-111 | a non-empty new tag is appended; the existing tags stay in front and nothing else is added |
| DataFormWizard.WithoutTag | src/components/data-management/DataFormWizard.tsx:113-115 | every occurrence of the tag goes and only it |
| DataFormWizard.WithoutIndex | src/components/data-management/DataFormWizard.tsx:101-105 | exactly position i is removed; an out-of-range i changes nothing |
| DataFormWizard.Wizard.constructor | src/components/data-management/DataFormWizard.tsx:61-75 | starts on the first step with the initial tags and attachments in both lists |
| DataFormWizard.Wizard.NextStep | src/components/data-management/DataFormWizard.tsx:117-121 | advances one step, or does nothing on the last |
| DataFormWizard.Wizard.PrevStep | src/components/data-management/DataFormWizard.tsx:123-127 | goes back one step, or does nothing on the first |
| DataFormWizard.Wizard.AddTag | src/components/data-management/DataFormWizard.tsx:107-111 | the tags become `WithTag` of the old tags |
| DataFormWizard.Wizard.RemoveTag | src/components/data-management/DataFormWizard.tsx:113-115 | the tags become `WithoutTag` of the old tags |
| DataFormWizard.Wizard.RemoveAttachment | src/components/data-management/DataFormWizard.tsx:101-105 | both attachment lists lose position i |
| DataFormWizard.Wizard.HandleFileUpload | src/components/data-management/DataFormWizard.tsx:95-99 | the new files follow the existing ones, in both lists |
| DataFormWizard.Wizard.Submit | src/components/data-management/DataFormWizard.tsx:129-134 | the submitted data carries the wizard's attachment list |
| DataFormWizard.TagOperationsKeepNoDuplicates | src/components/data-management/DataFormWizard.tsx:107-115 | adding and removing keep the tags duplicate-free |
| DataFormWizard.WithoutTagNoDuplicates | src/components/data-management/DataFormWizard.tsx:113-115 | removing keeps the tags duplicate-free |
| DataFormWizard.WithoutTagAppend | src/components/data-management/DataFormWizard.tsx:114 | removal distributes over concatenation, so the rest keep their order |
| DataFormWizard.WithoutTagAbsent | src/components/data-management/DataFormWizard.tsx:114 | removing an absent tag changes nothing |
| DataFormWizard.RemoveUndoesAdd | src/components/data-management/DataFormWizard.tsx:107-115 | removing a tag just added restores the tags |
| DataFormWizard.RemoveAttachmentShifts | src/components/data-management/DataFormWizard.tsx:102 | one fewer attachment; those before i stay, those after move up by one |
| DomainSearch.TrailingLetters | src/pages/Domains.tsx:50 | the count of letters ending the string, preceded by a non-letter or the start |
| DomainSearch.StripTld | src/pages/Domains.tsx:50 | either the query unchanged, or a prefix followed in the query by '.' and letters only |
| DomainSearch.BaseName | src/pages/Domains.tsx:50 | the base name is a prefix of the query, lower-cased, with no upper-case letter left |
| DomainSearch.Blank | src/pages/Domains.tsx:44 | the empty query is blank, and a non-empty blank query starts and ends with white space |
| DomainSearch.Results | src/pages/Domains.tsx:51-55 | six results: base name plus the first six extensions in order, each with its first-year price |
| DomainSearch.DomainSearchPage.constructor | src/pages/Domains.tsx:39-41 | empty query, not searching, no results |
| DomainSearch.DomainSearchPage.SetQuery | src/pages/Domains.tsx:95 | typing changes only the query |
| DomainSearch.DomainSearchPage.HandleSearch | src/pages/Domains.tsx:43-49 | a blank query changes nothing; otherwise searching starts and a timer holding the query is queued |
| DomainSearch.DomainSearchPage.TimerFires | src/pages/Domains.tsx:49-58 | the oldest timer's query gives the results and the spinner stops |
| DomainSearch.TrailingLettersAfterDot | src/pages/Domains.tsx:50 | after '.' and letters the count is exactly the letters |
| DomainSearch.StripTldDropsExtension | src/pages/Domains.tsx:50 | "name.ext" with a letters-only extension searches for "name" |
| DomainSearch.StripTldKeeps | src/pages/Domains.tsx:50 | a query not ending in a letter, or without '.', is kept |
| DomainSearch.BaseNameDropsLastExtension | src/pages/Domains.tsx:50 | a query ending in "." and letters gives everything before that dot, lower-cased: only the last extension goes and nothing is trimmed |
| DomainSearch.ResultsDistinct | src/pages/Domains.tsx:51-55 | the six offered domains are pairwise distinct |

## Left out

- SHA-512 over the UTF-8 encoding is not computed: it is a parameter returning 64 bytes, so hash
  collisions and the digest's value are outside the model.
- The request body's JSON parsing, CORS headers, `console` logging and the generic catch that turns an
  exception into a 500 are not modelled; requests arrive already parsed as `Request` values.
- The transaction id (`Date.now()` plus `Math.random()`), generated cart line ids, database ids and
  timestamps, discount expiry clocks, domain availability draws and timer delays are parameters.
- `PayU.InitiateBody`: `Math.round(amount * 100)` on a floating-point amount is taken as a given
  integer `amountCents`, and `amount.toString()` as a given decimal text.
- `CartService.DiscountAmount`: the percentage is rounded from the exact rational `subtotal * value / 100`;
  the source rounds the floating-point product `subtotal * (value / 100)`, which can differ at exact halves.
- `OrderService.NewOrderRow`: `Math.round(cart.total * 100)` is `100 * total`, exact for whole-rupee totals.
- `PriceUtils.TaxRatePercent`: rates are whole percentages (18, 20, 0) instead of the fractions 0.18, 0.2 and 0.
- `PriceUtils.CurrencyFor`: a lookup of an inherited name such as "constructor" in the plain-object
  table yields a function rather than "USD"; the model follows the catalogue finding's corrected lookup.
- `HostingService.ToAccount`: `Number(x) || 0` on usage counters is modelled for integer or null
  columns only; non-numeric text and NaN are not represented.
- The `typeof window === 'undefined'` branches of the cart (server-side rendering) and the storage
  exceptions on save are not modelled; storage is always available.
- Cart lines' `configuration` and `selectedAddons`, and `getServicePricingConfig`, which only returns the catalogue.
- `getServerStats` returns random figures and is not modelled.
- `formatCurrency` relies on `Intl.NumberFormat` and is not modelled.
- The ordering of `getOrders` and `getHostingAccounts` by `created_at` is the database's; the model takes
  the returned rows as given.
- `getOrder`'s failing query is not separated from "not found"; both give no order.
- `createHostingAccount`'s unused `serviceId` parameter.
- `toUpperCase`, `toLowerCase` and the regular expression's `/i` flag are ASCII-only in the model;
  strings are sequences of characters, not UTF-16 code units.
- The wizard's zod validation, DOMPurify, the rich-text editor and the two-second auto-save timer are
  not modelled; `Submit` receives already-validated form data.
- The VPS and domain prices (`calculatePrice` and the floating-point price literals) are not modelled
  beyond the integer cents of the domain table.
- `CartService.CartStore.AddToCart` takes the quantity explicitly; a call relying on the default
  `quantity = 1` is the call with 1.
- The payment webhook function is a stub that accepts any POST, and is not part of this model.

## Findings

| source | as written | input that shows it | evidently intended | confidence | as-written member | corrected member |
|---|---|---|---|---|---|---|
| src/services/cartService.ts:117-121 | `mockServices[serviceId]` on a plain object finds members inherited from `Object.prototype`, and `!service` only refuses `undefined` | `addToCart("constructor")` passes the guard and appends a line named "Object" with an undefined price, so a NaN total, instead of throwing "Service not found" | only the catalogue's own entries are services; any other id throws | not executed | CartService.InheritedKeyPassesGuard | CartService.OwnLookupGuardExact |
