# Checkout pricing and product API, modelled in Dafny

This project models two parts of a small pet-shop storefront.

The first part is the checkout page script, `js/payment.js`. It covers:

- the pricing engine: `calculateTotals`, `PAYMENT_FEES` and `round`;
- the page's selection state: `selectShipping`, `selectPayment` and `selectProvider`;
- the form validator, `validateForm`, with JavaScript's `trim` and the e-mail pattern `^[^\s@]+@[^\s@]+\.[^\s@]+$`;
- the payment step and the submit handler, `processCheckout`;
- the order history in the browser store, `saveOrderRecord`, and the cart reset.

The second part is the product endpoint, `api/products.php`. It covers:

- dispatch on the request method, with OPTIONS, GET and the 405 fallback;
- the image check of POST: the extension whitelist and the generated file name;
- the dynamic `UPDATE` that PUT builds from the allowed columns;
- the id that DELETE resolves from the query string or the body.

The PHP built-ins these branches depend on are modelled in `php_values.dfy`: `empty`, `isset`, the `(int)` cast, `strtolower`, `pathinfo(..., PATHINFO_EXTENSION)`, `implode` and `explode`.

Files:

- `wrappers.dfy` holds `Option` and `Result`.
- `sequences.dfy` holds first and last index search.
- `pricing.dfy` holds the pricing engine.
- `form.dfy` holds trimming, the e-mail pattern and the validator.
- `checkout.dfy` holds the page state (`CheckoutPage`), the browser store (`LocalStore`), the payment step and `ProcessCheckout`.
- `php_values.dfy` holds the PHP value semantics.
- `products.dfy` holds the endpoint.

Money is an integer number of rupiah. The source multiplies by `0.11` and by `1.5 / 100` in floating point and then calls `Math.round`. Here those products are computed exactly, and `Round(num, den)` is `floor(num / den + 1/2)`, which is `Math.round`'s rule: halves go towards positive infinity. The fee table is kept in tenths of a percent, so that e-wallet's 1.5% is the integer 15.

Four behaviours of the code that a reader might not expect, and which the model keeps:

- Payment method outside the table: a failed payment does reach the order record. A payment method other than `bank-transfer`, `cod` or `e-wallet` keeps the initial unsuccessful payment result. The order is then recorded and the cart cleared, with status `failed`. `ProcessCheckout` and `RecordsCheckout` state this.
- `selectProvider` does not check the payment method, so `SelectProvider` sets the provider under any method. Only `SelectPayment` and the initial state keep `ProviderOnlyForWallet`.
- Missing-provider check: `processCheckout` checks a second time for an e-wallet payment without a provider. `validateForm` has already refused that case, so the second check never fires. `ProcessCheckout` proves `outcome != MissingProvider`.
- PUT id: PUT refuses only an id that PHP's `empty` holds to be empty. A non-empty id such as `"abc"` passes, and the `UPDATE` runs with `:id` set to its cast, 0. DELETE instead refuses any id that casts to 0. `BuildUpdate` states the PUT rule. `NonEmptyMayCastToZero` exhibits such an id.

## Model

| member | source | states |
|---|---|---|
| Pricing.Round | js/payment.js:37 | `Math.round(num / den)` is the integer nearest to the quotient, with halves rounded up, and it is not negative for a non-negative numerator |
| Pricing.FeePermille | js/payment.js:16-20 | the fee table with its default of 0: 15 per mille exactly for e-wallet, 0 for every other method, unknown ones included |
| Pricing.CalculateTotals | js/payment.js:96-106 | the subtotal is the cart's sum; tax is 11% of it rounded on its own; preTotal adds shipping (0 when the cost is absent) and tax; the fee is 1.5% of preTotal rounded on its own for e-wallet and 0 otherwise; the grand total is the sum of all parts |
| Pricing.SubtotalConcat | js/payment.js:98 | the `reduce` sum over a cart split in two is the sum of the two sums |
| Pricing.SubtotalCons | js/payment.js:98 | the left fold equals the sum taken from the front: the first item's `price * qty` plus the rest |
| Pricing.SubtotalNonNegative | js/payment.js:98 | with no negative prices or quantities the subtotal is not negative |
| Pricing.TotalsOrdered | js/payment.js:98-103 | with non-negative prices, quantities and shipping, 0 <= subtotal <= preTotal <= grandTotal, and tax and fee are not negative |
| Pricing.EmptyCartTotals | js/payment.js:98-100 | an empty cart has zero subtotal and tax, so preTotal is the shipping cost |
| Pricing.WorkedExamples | js/payment.js:96-106 | two items at 100000 with shipping 15000 give 200000, 22000 and 237000; the fee is 0 for bank transfer and 3555 for e-wallet, for a total of 237000 or 240555 |
| Form.TrimStart | js/payment.js:194 | the leading-trim result is a suffix of the input, everything cut off is white space, and the result does not start with white space |
| Form.TrimEnd | js/payment.js:194 | the trailing-trim result is a prefix of the input, everything cut off is white space, and the result does not end with white space |
| Form.TrimEmptyIffBlank | js/payment.js:194 | `value.trim()` is empty exactly when the value is all white space |
| Form.TrimIsSlice | js/payment.js:194 | the trimmed value is a contiguous slice of the input, and everything outside it is white space |
| Form.MatchesEmailSound | js/payment.js:203-205 | every string the deterministic e-mail check accepts matches the regular expression read literally |
| Form.MatchesEmailComplete | js/payment.js:203-205 | every string the regular expression matches is accepted by the deterministic check |
| Form.MatchesEmailIffPattern | js/payment.js:204-205 | the deterministic check and the regular expression accept the same strings |
| Form.AllFilledEach | js/payment.js:190-200 | the recursive required-fields check holds exactly when every listed input exists and is non-empty after trimming |
| Form.ValidateForm | js/payment.js:189-217 | the result is true exactly when all seven required inputs exist and are non-blank after trimming, the e-mail value matches the pattern, and e-wallet has a truthy provider |
| Checkout.Pay | js/payment.js:278-291 | an e-wallet payment without a provider stops; a cancelled simulation stops with its message; a confirmed e-wallet payment is paid with a `TX-` id; bank transfer and COD are pending under their own names; any other method leaves a failed result |
| Checkout.LocalStore.SaveOrderRecord | js/payment.js:43-48 | the order goes to the front of the history and becomes the last order; the cart is untouched |
| Checkout.LocalStore.ClearCart | js/payment.js:320 | the cart becomes empty and nothing else changes |
| Checkout.CheckoutPage.constructor | js/payment.js:22-25 | the initial state is regular shipping at 15000, bank transfer and no provider |
| Checkout.CheckoutPage.SelectShipping | js/payment.js:124-145 | only the shipping selection changes, in either calling form, and the provider invariant is kept |
| Checkout.CheckoutPage.SelectProvider | js/payment.js:182-186 | the provider becomes the button's `data-provider`, whatever the payment method; nothing else changes |
| Checkout.CheckoutPage.SelectPayment | js/payment.js:147-180 | the method is set; a non-e-wallet method clears the provider; e-wallet keeps a chosen provider or auto-selects the first button's; afterwards only e-wallet carries a provider |
| Checkout.CheckoutPage.ProcessCheckout | js/payment.js:252-326 | an invalid form or an empty cart stops with the store unchanged; a cancelled e-wallet payment stops with its message and the store unchanged; the missing-provider exit is unreachable; otherwise the order (trimmed buyer, cart, selections, totals, provider label, transaction id, status) is prepended to the history and stored as the last order, and the cart is cleared |
| PhpValues.EmptyCastsToZero | api/products.php:122-124 | every value that PHP's `empty` holds to be empty casts to 0 with `(int)`, so the DELETE branch's `empty($id)` tests the cast value |
| PhpValues.NonNumericCastsToZero | api/products.php:91 | a string starting with neither white space, a sign nor a digit casts to 0 |
| PhpValues.NonEmptyMayCastToZero | api/products.php:86-91 | the converse fails: `"abc"` is not empty yet casts to 0 |
| PhpValues.DecimalValueOfString | api/products.php:91 | the digits of a number's decimal text denote that number |
| PhpValues.StringToIntOfDigits | api/products.php:91 | a string of digits casts to the number it denotes |
| PhpValues.StringToIntOfDecimal | api/products.php:122 | `(int)` of a number's decimal text gives the number back |
| PhpValues.StringToIntOfNegatedDecimal | api/products.php:122 | `(int)` of a minus sign followed by a number's decimal text gives the negated number |
| PhpValues.Lower | api/products.php:42 | `strtolower` keeps the length, lowers each character by the ASCII rule, and leaves no ASCII capital |
| PhpValues.LowerIdempotent | api/products.php:42 | lowering twice is lowering once |
| PhpValues.Extension | api/products.php:42 | the extension holds no `.` or `/`, and when not empty it is what follows the path's final `.` |
| PhpValues.ExtensionEmpty | api/products.php:42 | the extension is empty only when the last path component holds no `.` or the path ends in `.` |
| PhpValues.ExtensionOfTrailingDot | api/products.php:42 | `a.b.` has an empty extension although its component holds a `.` before the last one |
| PhpValues.ExtensionOfSuffixed | api/products.php:49 | the name `stem . "." . ext` has extension `ext` for any stem, when `ext` is non-empty and holds no `.` or `/` |
| PhpValues.SplitJoin | api/products.php:107 | splitting an `implode`d list at the separator gives the list back when no entry holds the separator |
| Products.StoreImage | api/products.php:37-58 | with no file name there is no image; an extension not in {jpg, jpeg, png} after lowering is refused with "Format file tidak valid"; a failed move is refused with "Gagal upload gambar"; otherwise the stored name is the unique id, `.` and the lowered extension; those two messages are the only errors |
| Products.StoredNameExtension | api/products.php:41-49 | the stored file name's own extension is the accepted one, whatever the unique id holds |
| Products.BuildUpdate | api/products.php:84-107 | a missing or empty id gives 400 "Missing id"; otherwise the SET list holds one `col = :col` per allowed column set in the input, in order; the parameters are exactly those placeholders with the input's values, plus `:id` as the cast id; with no such column there is nothing to update |
| Products.PlaceholderNotId | api/products.php:93-106 | no allowed column's parameter collides with `:id` |
| Products.PlaceholderInjective | api/products.php:99 | distinct columns get distinct parameter names, so no entry of `$params` overwrites another |
| Products.PresentColumnsMembers | api/products.php:96-101 | a column reaches the SET list exactly when it is allowed and `isset` in the input |
| Products.PresentColumnsInOrder | api/products.php:96-101 | the SET list keeps the order of the allowed list |
| Products.AssignmentsAt | api/products.php:98 | the k-th SET entry is the assignment of the k-th kept column |
| Products.SetListSplits | api/products.php:107 | the comma-joined SET list splits back into its entries, so each entry is one column assignment |
| Products.ResolveDelete | api/products.php:119-131 | the id is refused with 400 "Missing id" exactly when `DeleteId` is 0; otherwise the `DELETE` runs with `:id` bound to it |
| Products.QueryIdFirst | api/products.php:122-123 | a non-zero id in the query string wins over the body's |
| Products.Handle | api/products.php:9-142 | OPTIONS exits silently, GET reads, and a method outside the five is refused with 405; only POST inserts or refuses an upload, and its reply is the image step's verdict (no name gives no image, a bad extension or a failed move is refused, else the unique id with the lowered extension); PUT refuses exactly an empty id, answers nothing to update without an allowed column, and otherwise runs the `UPDATE` over the set columns with `:id` as the cast id; DELETE refuses exactly an id that resolves to 0 and otherwise runs the `DELETE` with that id |

## Left out

- Page rendering and alerts are not modelled. This covers border colours, active classes, the modal, redirects, `cartChanged` and storage events, `renderOrderItems`, `updateSummaryUI` and `formatRupiah`. None of them changes the state the model keeps.
- Local storage is not modelled as JSON. The browser store is a `LocalStore` object with its three keys as fields, so `JSON.parse`/`JSON.stringify` and a missing or corrupt key are not modelled.
- `trySendToServer` is not modelled: it is a fire-and-forget network call whose failure is swallowed.
- The timers of `simulateDigitalPayment` become an input, `WalletOutcome`: the payment is either confirmed or cancelled by the user. `Date.now()`, `new Date().toISOString()` and `uniqid("img_")` are inputs too (`Clock`, `Request.uniqueId`).
- Pricing.CalculateTotals: is stated over exact arithmetic. The source's IEEE-754 products `subtotal * 0.11` and `preTotal * 1.5 / 100` can differ from the exact value by one unit in the last place, which can move a result that lies on a half. Item prices, quantities and shipping costs are integers here, not arbitrary JavaScript values.
- Pricing.FeePermille: does not model a payment method that names an inherited property of a JavaScript object (such as `"toString"`); such a method would read a function rather than a number.
- The form is a map from element id to value, so an input with an id outside the map is absent. `EmailValue` treats a missing e-mail input as the empty string, as the source's `|| ''` does.
- `processCheckout` throws when a required input element is absent and yet validation passed. That cannot happen, because validation requires every input, so `BuyerFrom` uses the empty string there.
- Database work is not modelled. Running the statements (PDO), `rowCount`, `lastInsertId` and the 400 reply on a database exception are left out. The handler returns the statement and its parameters instead.
- The GET branch is reduced to "read products". Both its queries belong to the database.
- The POST branch's `INSERT` parameters are not modelled: the `$_POST` fields and their `intval`. Only the image step that decides the `:image` value is modelled.
- `db.php` is not part of this model.
- PhpValues.StringToInt: does not model numeric strings with a fraction or an exponent (`"1e3"`, `"1.5"`), hexadecimal-looking text, or integer overflow to `PHP_INT_MAX`.
- PhpValues.Json: keeps only the elements of a decoded array or object, not its keys. The request body is a map from key to value; a body that is not a JSON object becomes the empty map, as `$input['id']` is then null. A query parameter given as an array (`?id[]=1`) is not modelled.
- PhpValues.Extension: does not model `pathinfo`'s handling of a trailing `/` or of backslashes as separators.
- Checkout.CheckoutPage.ProcessCheckout: with SelectShipping and SelectPayment, the model runs each handler to completion, one at a time. It does not capture that the `await` on the e-wallet simulation (js/payment.js:282) lets other handlers run, so the order built afterwards (js/payment.js:293-300) can record a shipping choice, payment method or cart that differ from the ones the totals were computed from at js/payment.js:275. A second press of the pay button during the wait is not modelled either; it would record a second order.
- Checkout.CheckoutPage.SelectShipping, Checkout.CheckoutPage.SelectPayment: the keyboard handler that clicks a method on Enter or space (js/payment.js:347-349) is not modelled, nor the `TypeError` that the element form throws at js/payment.js:141 and js/payment.js:163 when the element holds no radio input; the model always completes the selection.
- Form.IsWhitespace: follows the ECMAScript white-space and line-terminator sets; Unicode categories outside that list are not consulted.
