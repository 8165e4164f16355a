# Storefront core in Dafny

This project models the business rules of a Django storefront. The project
is a set of vendors' shops with a session cart, checkout, cash-on-delivery
fulfilment and a vendor back office. The rules sit inside view functions.
Here the database is a `Store` object. Its fields are the tables the rules
touch: products, orders, line items grouped by order, coupons, addresses
and images. Each view is a method that changes those fields. Next to each
method there is a function that says what the view leaves behind.

Modelling conventions:

- Money is `real`, so decimals are exact while Python computes. A
  `DecimalField` with two decimal places rounds what it stores to whole
  cents (`Models.ToCents`). That rounding belongs to the database backend:
  PostgreSQL and MySQL round a tie away from zero, and Django's SQLite
  converter rounds it to even. So the mode is the constant
  `Store.rounding`.
- The clock is an integer `now` in microseconds.
- Text that the view converts with `int()` or `float()` is a `Field`:
  `Parsed(v)`, `Blank` or `Garbage`.
- An unhandled exception (HTTP 500) is a failure result that leaves the
  session and the tables unchanged. The session is then not saved, and an
  atomic block is rolled back.

The modules follow the program:

| module | file | what it covers |
|---|---|---|
| `Common` | `common.dfy` | Option, Field, sequences, and `qty × price` as repeated addition |
| `Text` | `text.dfy` | Python's `strip`, `upper`, `split` and `lstrip` |
| `Models` | `models.dfy` | records, defaults, the `Store` tables, `get_precentage`, `image_src`, vendor primary image and banner |
| `Cart` | `cart.dfy` | `add_to_cart`, `delete_item_from_cart`, `update_cart`, `cart_view` |
| `Pricing` | `pricing.dfy` | `apply_coupon_to_order` and the discount of `checkout` |
| `Checkout` | `checkout.dfy` | `checkout`: line-item rebuild, subtotal, coupon, total |
| `Fulfillment` | `fulfillment.dfy` | `cod_checkout`, `cod_detail`, `cod_accept`, `payment_completed_view` |
| `Addresses` | `addresses.dfy` | `make_address_default` |
| `OrderStatus` | `order_status.dfy` | the vendor's `change_order_status` |
| `Forms` | `forms.dfy` | `AddProductForm` and `CouponForm` validation |
| `ProductAdmin` | `product_admin.dfy` | add, edit, delete and restore a product; tag splitting |
| `CouponTags` | `coupon_tags.dfy` | the coupon badge, colour, expiry test, days left and filter flag |
| `CouponAdmin` | `coupon_admin.dfy` | the coupon listing filters, add, edit, delete and toggle |
| `DiscountFilters` | `discount_filters.dfy` | the `get_discount_percentage` template filter |

Behaviours of the code a reader may not expect (the model follows the
code):

- The checkout total is not floored at 0. `subtotal - discount` is stored
  as it is (core/views.py:445). `Forms.AcceptedCouponTotal` shows that a
  coupon the form accepts keeps the total in `[0, subtotal]` when its cap is
  not negative. It also shows that a negative cap raises the total above
  the subtotal.
- `checkout` detaches the order's coupon before it applies the code
  (core/views.py:395-397). So the "already applied" refusal can never fire
  from checkout (`Checkout.CheckoutCharges`). It still fires when
  `apply_coupon_to_order` is called on an order that holds the coupon.
- `change_order_status` accepts a change to a status of the same rank
  (useradmin/views.py:410).
- `update_cart` on an unknown product answers 404 and leaves the cart as it
  is. It does not drop the line (core/views.py:204-209).
- `update_cart` against a stock of 0 stores quantity 0 for a request of at
  least 1 (core/views.py:214-215). It does not keep the previous quantity.
- `checkout` prices each line at the price held in the session cart, not at
  the product's current price (core/views.py:408).
- `checkout` reads the subtotal back from the stored line items, so it is
  a sum of totals already rounded to cents (core/views.py:422-423). The
  discount and the total it shows are computed from it without rounding,
  while the order's amount column keeps the total rounded to cents
  (core/views.py:440-447): a subtotal of 10.01 with 15% off shows 8.5085
  and stores 8.51 (`Checkout.CheckoutCharges`).

## Model

| member | source | states |
|---|---|---|
| Common.TimesIsProduct | core/views.py:415 | `qty * price`, written as repeated addition, is the product of the quantity and the price |
| Common.FloorAtZero | core/views.py:764 | `max(0, x)` is at least `x` and at least 0, and equals whichever of them is larger |
| Text.Strip | useradmin/views.py:183 | `strip()`: `rstrip()` of `lstrip()`, each dropping the characters `str.isspace` accepts; what it guarantees is stated by `Text.StripIsSlice` |
| Text.StripIsSlice | useradmin/views.py:183 | `strip()` gives a stripped slice of its input, and it is empty exactly when the input is all whitespace |
| Text.StripStripped | core/views.py:368 | stripping text that is already stripped changes nothing |
| Text.StripIdempotent | core/views.py:368 | stripping twice is stripping once (`checkout` strips the code, then `apply_coupon_to_order` strips it again) |
| Text.TrimLeftSpec | core/models.py:512 | the left trim drops exactly the leading whitespace |
| Text.TrimRightSpec | core/models.py:512 | the right trim drops exactly the trailing whitespace |
| Text.Upper | useradmin/views.py:614 | `upper()` keeps the length, maps each ASCII letter a–z to its capital and keeps every other character |
| Text.UpperIsUpper | useradmin/views.py:614 | `upper()` yields upper-case text and leaves upper-case text unchanged |
| Text.CanonicalCodeIdempotent | useradmin/views.py:614 | `upper().strip()` yields upper-case stripped text, and applying it again changes nothing |
| Text.LStripChar | core/models.py:517 | `lstrip('/')` removes exactly a leading run of `/` and leaves a suffix that does not start with `/` |
| Text.Split | useradmin/views.py:183 | `split(",")` yields at least one piece, and no piece holds the separator |
| Text.JoinSplit | useradmin/views.py:183 | joining the pieces of a split with the separator gives back the text |
| Text.SplitCount | useradmin/views.py:183 | a split yields one more piece than the text has separators |
| Models.NewProduct | core/models.py:346-359 | a new product has no stock, is in review, and is listed and in stock |
| Models.NewOrder | core/models.py:479-485 | a new order is processing and unpaid, with no coupon |
| Models.RoundHalfEven | core/models.py:401 | `round(x, 0)` on a Decimal lies within 0.5 of `x`, and a tie goes to the even integer |
| Models.RoundWhole | core/models.py:401 | rounding a whole number gives that number |
| Models.RoundHalfUp | core/views.py:753 | `ROUND_HALF_UP` lies within 0.5, and a tie goes away from zero |
| Models.CentsSpec | core/models.py:478 | a value stored in a two-place money column is a whole number of cents within half a cent of the value saved; a tie goes away from zero under PostgreSQL and MySQL rounding, and to an even cent under SQLite's |
| Models.CentsKept | core/models.py:478 | a value that is already whole cents is stored unchanged |
| Models.CentsSum | core/models.py:502-503 | sums and differences of whole cents are whole cents |
| Models.ToCents | core/models.py:478 | the value a two-place money column holds once `x` is saved: `x × 100` rounded to a whole number by the backend's mode, over 100; what it guarantees is stated by `Models.CentsSpec` and `Models.CentsKept` |
| Models.GetPercentage | core/models.py:394-404 | with no positive old price the percentage is 0; otherwise it lies within 0.5 of the exact drop `(old − price) / old × 100` |
| Models.PercentageWithoutDrop | core/models.py:400-402 | with no old price, or an unchanged price, the percentage is 0 |
| Models.PercentageBounds | core/models.py:400-401 | a sale price between 0 and the old price gives a percentage in [0, 100] |
| Models.PositivePercentageMeansDrop | core/models.py:400-401 | a positive percentage means the price is below the old price |
| Models.ImageSrc | core/models.py:509-517 | no image, or an empty one, gives the empty string; any other image gives an absolute URL or data URI, or a URL under `MEDIA_URL` |
| Models.ImageSrcAbsolute | core/models.py:510-515 | an absolute URL or data URI is returned stripped, and `image_src` of that result is itself |
| Models.ImageSrcRelative | core/models.py:510-517 | any other image is `MEDIA_URL` plus the stripped path without its leading `/`: the tail kept does not start with `/` and everything dropped before it is `/`; whitespace alone gives `MEDIA_URL` |
| Models.WithPrimary | core/models.py:201-215 | the image table after the two updates of `set_primary_*` keeps every image and changes nothing but primary flags |
| Models.WithPrimaryOnlyChosen | core/models.py:201-215 | after the switch only the chosen image of that vendor and type is primary, or none is if it is not theirs; other images are untouched |
| Models.SetPrimary | core/models.py:201-215 | clears every primary flag of the vendor's images of a type, sets the chosen one, and counts the rows the second update touched |
| Models.SetPrimaryImage | core/models.py:201-207 | `set_primary_image` applies that switch to the vendor's pictures |
| Models.SetPrimaryBanner | core/models.py:209-215 | `set_primary_banner` applies that switch to the vendor's banners |
| Cart.AfterAdd | core/views.py:163-176 | adding fails exactly when the id is already in the cart and the new quantity is not a number; otherwise the cart holds the id with the requested quantity |
| Cart.AddKeepsCartValid | core/views.py:163-176 | adding fails only when the id is in the cart and the new quantity is not a number; otherwise the cart stays well formed and holds the id |
| Cart.AddExistingOverwritesQty | core/views.py:164-169 | adding an id already in the cart overwrites its quantity and keeps its title, price, image and every other line |
| Cart.AddNewAppends | core/views.py:170-176 | adding a new id appends exactly the requested line and keeps the others |
| Cart.AddToCart | core/views.py:152-177 | the session cart becomes the cart after the add, and the reply counts its lines |
| Cart.Remove | core/views.py:182-186 | deleting removes exactly that id and keeps the order of the rest; deleting an absent id changes nothing |
| Cart.ValueOfDefined | core/views.py:188-191 | the total exists exactly when every line's quantity and price parse |
| Cart.TotalValue | core/views.py:188-191 | the totalling loop computes that total, or fails at the first line that does not parse |
| Cart.DeleteItemFromCart | core/views.py:180-194 | the cart loses the line and the reply carries the total of the rest; a missing cart or a line that does not parse fails with nothing changed |
| Cart.Clamp | core/views.py:211-216 | a quantity below 1 becomes 1 with the "at least 1" message; one above the stock becomes the stock with the "only N in stock" message; one in [1, stock] is kept, and exactly then there is no message |
| Cart.ClampBounds | core/views.py:211-216 | with stock the quantity lies in [1, stock]; with none it is 1 or 0 |
| Cart.ClampStable | core/views.py:211-216 | clamping an already clamped quantity changes nothing |
| Cart.SubtotalSumDefined | core/views.py:223 | the cart total exists exactly when every line carries a subtotal |
| Cart.SubtotalSumReplace | core/views.py:217-223 | replacing one line's subtotal moves the sum by exactly the difference |
| Cart.SumSubtotals | core/views.py:223 | the summing loop yields the cart total, or fails when a line has no subtotal |
| Cart.UpdateSpec | core/views.py:198-232 | every outcome of `update_cart` but a successful update leaves the session cart as it was; the reply is 404 exactly when the quantity is a number and the product does not exist |
| Cart.UpdateSetsLine | core/views.py:211-229 | a successful update stores the clamped quantity and `qty × price` on that line only, and reports the sum of the stored subtotals |
| Cart.UpdateOtherwiseUnchanged | core/views.py:199-223 | every other outcome leaves the cart as it was; the 404 happens exactly for an unknown product |
| Cart.UpdateCart | core/views.py:198-232 | `update_cart`'s reply and session cart are those the update rule gives |
| Cart.Present | core/views.py:96-104 | the kept ids are exactly the cart ids whose product exists |
| Cart.PresentDistinct | core/views.py:96-104 | the kept ids stay distinct |
| Cart.PresentAll | core/views.py:96-104 | when every product exists, nothing is dropped |
| Cart.PresentSnoc | core/views.py:96-104 | one more cart id extends the kept ids by that id exactly when its product exists |
| Cart.ViewLineTwice | core/views.py:99-110 | a line's view subtotal ignores the subtotal already stored |
| Cart.ViewLinesTwice | core/views.py:96-116 | viewing lines that were already viewed changes nothing |
| Cart.ViewCart | core/views.py:96-116 | the cart written back keeps exactly the ids whose product still exists |
| Cart.ViewCartValid | core/views.py:96-116 | the viewed cart is again a well-formed cart |
| Cart.ViewCartKeepsPresent | core/views.py:96-116 | the view drops exactly the lines whose product is gone and keeps the rest in order, each with its subtotal |
| Cart.ViewCartIdempotent | core/views.py:96-116 | viewing a viewed cart changes nothing |
| Cart.ViewedSubtotalsSum | core/views.py:110-113 | after a view every line carries its subtotal, and their sum is the view's total |
| Cart.UpdateMovesTotal | core/views.py:217-223 | when every line has a subtotal, updating a line moves the reported total by exactly that line's change |
| Cart.UpdateAfterView | core/views.py:217-223 | right after a view, an update succeeds and reports the view's total moved by that line's change |
| Cart.GetOrCreatePending | core/views.py:129-139 | creates the user's pending order with the cart total rounded to cents by the column, or sets the amount of the only one to it; several pending orders make it fail |
| Cart.ViewedLinesSnoc | core/views.py:110-113 | each loop step adds one viewed line and its subtotal to the total |
| Cart.ViewedLinesHold | core/views.py:110-112 | the collected lines hold exactly the kept ids, each viewed |
| Cart.ViewCartFromLines | core/views.py:110-116 | the lines the loop collects make up the viewed cart |
| Cart.ViewSubtotal | core/views.py:99-108 | the subtotal `cart_view` stores is `qty × price` for a number quantity and price, and 0 for an empty price or when a conversion raises |
| Cart.LineSubtotal | core/views.py:97-108 | a line's subtotal is `qty × price`, with an empty price as 0, and 0 when a conversion raises |
| Cart.RefreshLine | core/views.py:96-113 | one turn of the loop keeps, views and adds up line `i` exactly when its product exists |
| Cart.KeptStep | core/views.py:96-104 | line `i` of the cart has an entry, and the kept ids grow by its id exactly when its product exists |
| Cart.RefreshCart | core/views.py:93-116 | the loop yields the viewed cart and its total |
| Cart.ShowCart | core/views.py:129-149 | with lines left, the pending order of the user is created or updated with the total rounded to cents and the viewed cart is stored; several pending orders, or none and no vendor, fail with nothing changed |
| Cart.CartView | core/views.py:90-149 | `cart_view` stores the viewed cart and sets the pending order's amount to its total rounded to cents; the page shows the unrounded total; an empty view touches no order |
| Pricing.LookupSpec | core/views.py:370 | the case-insensitive lookup of an active coupon finds the single match, none, or several |
| Pricing.LookupCoupon | core/views.py:370 | the lookup returns that answer |
| Pricing.Rejection | core/views.py:372-382 | the checks run in order (expired, below the minimum, already applied) and the first that fails decides |
| Pricing.Decide | core/views.py:369-390 | once the lookup has answered: refused as invalid exactly when no coupon matched, a failure exactly when several did, and an applied coupon is the one found; a request is always decided |
| Pricing.ApplySpec | core/views.py:364-390 | `apply_coupon_to_order` always decides the request, and an applied coupon is one the coupon table holds |
| Pricing.ApplyChecksInOrder | core/views.py:368-390 | an unknown code is refused first; an applied coupon is the one the code names, active, unexpired, within its minimum and not a repeat |
| Pricing.ApplyOnlySuccessAttaches | core/views.py:380-390 | an applied coupon exists, and an order without a coupon is never refused as a repeat |
| Pricing.ApplyCouponToOrder | core/views.py:364-390 | only a success attaches the coupon; every refusal leaves the order as it was |
| Pricing.ApplyKey | core/views.py:369-390 | the same, once the code is stripped |
| Pricing.Discount | core/views.py:442-444 | the discount is `subtotal × pct / 100`, lowered to the cap, and never above either |
| Pricing.Total | core/views.py:440-447 | without a coupon the total is the subtotal; with one it is the subtotal less the smaller of the percentage and the cap |
| Pricing.DiscountBounds | core/views.py:440-447 | for a percentage in [0, 100] and a non-negative cap, the discount and the total lie in [0, subtotal] |
| Checkout.Usable | core/views.py:406-408 | a cart line `checkout` can store: `int(qty)` gives a quantity the positive-integer column accepts and `Decimal(str(price))` parses; any other line makes the request fail |
| Checkout.Reconcile | core/views.py:404-419 | the items the loop creates, in cart order: a line whose product is gone is skipped, and an unusable line fails the whole rebuild; what it guarantees is stated by `Checkout.ReconcileDefined`, `Checkout.ReconcileLength` and `Checkout.ReconcileMatchesPresent` |
| Checkout.ReconcileDefined | core/views.py:404-419 | the rebuild succeeds exactly when every line whose product exists is readable |
| Checkout.ReconcileLength | core/views.py:404-419 | a rebuild holds one item per cart line whose product exists |
| Checkout.ReconcileMatchesPresent | core/views.py:404-416 | each rebuilt item names its product's title and image and charges `qty × cart price`, in cart order |
| Checkout.ReconcileTotalIsCartTotal | core/views.py:422-423 | the rebuilt items add up to the total the cart page computed |
| Checkout.RebuildItems | core/views.py:404-419 | the loop creates exactly those items, or fails |
| Checkout.ReconcileFailsFrom | core/views.py:404-419 | once a line fails, the whole rebuild fails |
| Checkout.StoredItems | core/models.py:502-503 | the table holds one stored item per rebuilt item |
| Checkout.StoredItemsAt | core/models.py:502-503 | each stored item is the rebuilt item with its price and total rounded to cents |
| Checkout.StoredItemsTotal | core/views.py:422-423 | the subtotal read back from the stored items is whole cents, within half a cent per item of the sum of the unrounded totals |
| Checkout.StoredKeepsCents | core/models.py:502-503 | items whose prices and totals are whole cents are stored as they are |
| Checkout.TimesCents | core/views.py:415 | a whole-cent price times a quantity is whole cents |
| Checkout.ReconcileCents | core/views.py:404-416 | a cart whose prices are whole cents rebuilds into items whose prices and totals are whole cents |
| Checkout.StoredSubtotal | core/views.py:404-423 | the subtotal `checkout` reads back is whole cents, within half a cent per line of the cart page's total, and equal to it when the cart's prices are whole cents |
| Checkout.CheckoutSpec | core/views.py:392-447 | `checkout`'s outcome: not found exactly when the order is missing or another user's; every outcome but a priced one leaves the orders and line items as they were |
| Checkout.PricedSpec | core/views.py:421-447 | once the items are stored: a priced outcome's subtotal is the sum of the stored items' totals and the order's items become the stored items; a failed lookup leaves both tables as they were |
| Checkout.CheckoutCharges | core/views.py:392-447 | a priced checkout charges the stored subtotal less the capped discount of a coupon applied in this request and no other; that subtotal is whole cents, within half a cent per line of the cart page's total and equal to it for whole-cent prices; the order stores the total rounded to cents, whole cents within half a cent of the total shown and the subtotal itself without a coupon; the order's items become the rebuilt items rounded to cents; only this order and its items change |
| Checkout.PricedCharges | core/views.py:427-447 | from the stored items, the order is charged their subtotal less the capped discount of the coupon applied in this request, if any, and stores that total rounded to cents; only this order and its items change |
| Checkout.CheckoutFailsWhen | core/views.py:392-447 | checkout fails exactly on an unreadable line or an ambiguous code, and then changes nothing |
| Checkout.DoCheckout | core/views.py:392-447 | `checkout`'s outcome, orders and line items are those the checkout rule gives |
| Checkout.CheckoutOwned | core/views.py:394-447 | the same, on an order of the requesting user |
| Checkout.ClearOrder | core/views.py:395-400 | the order loses its coupon and its line items |
| Checkout.PriceItems | core/views.py:427-447 | from the stored items and their subtotal as the amount, applies the code, prices the order and rolls back when the lookup fails |
| Checkout.PricedOverwrites | core/views.py:395-447 | clearing the coupon and storing the rounded subtotal before the pricing leave the same order as pricing the stored order directly: the earlier writes to that order are overwritten |
| Checkout.StoreItems | core/views.py:409-429 | the order gets the rebuilt items rounded to cents by the columns, the subtotal is read back from them, and that subtotal, rounded to cents, is the order's amount |
| Checkout.StoreAndPrice | core/views.py:409-447 | storing the items, then pricing, leaves the outcome and tables the pricing rule gives for the items as stored |
| Checkout.PriceOrder | core/views.py:430-447 | applies the code and takes the capped discount off the subtotal; the order stores that total rounded to cents, and the coupon the request applied |
| Checkout.TryCoupon | core/views.py:431-435 | the posted code is stripped and applied to an order without a coupon |
| Checkout.TryKey | core/views.py:434-435 | the stripped code is applied; only a success attaches it |
| Fulfillment.Deduct | core/views.py:761-769 | the product keeps its title; its stock drops by the quantity but not below 0; at 0 it is out of stock and a draft; otherwise only the stock changes |
| Fulfillment.DeductByTitle | core/views.py:757-769 | deducting by title keeps every product and its title |
| Fulfillment.StockAfter | core/views.py:754-769 | deducting all items keeps every product and its title |
| Fulfillment.DeductStep | core/views.py:763-768 | one more deduction keeps the floor-at-zero stock and the delisting rule |
| Fulfillment.StockAfterFloor | core/views.py:754-769 | each product ends with `max(0, stock − ordered)` of its title; at 0 it is out of stock and a draft; a product no item names is unchanged |
| Fulfillment.FloorTwice | core/views.py:764 | flooring at zero twice is flooring once the total deduction |
| Fulfillment.DeductKeepsUnique | core/views.py:757 | deducting keeps titles unique |
| Fulfillment.DeductOne | core/views.py:757-769 | with unique titles the deduction updates the one product with that title |
| Fulfillment.DeductNone | core/views.py:758-759 | an item whose title matches no product changes nothing |
| Fulfillment.StockAfterSnoc | core/views.py:754 | the loop deducts the items one after another |
| Fulfillment.DeductStock | core/views.py:754-769 | the product table becomes the table after all deductions |
| Fulfillment.DeductLine | core/views.py:755-769 | the product table becomes the table after one item's deduction |
| Fulfillment.CodAmount | core/views.py:750-753 | a positive amount is kept; otherwise the amount is the item total quantized to whole cents, within half a cent of it |
| Fulfillment.CodSpec | core/views.py:733-781 | every outcome of `cod_checkout` but a placed order leaves the orders, products and cart as they were; it fails (500) exactly when the posted id is not a number |
| Fulfillment.CodCheckout | core/views.py:733-781 | `cod_checkout`'s outcome, orders, products and cart are those the COD rule gives, and every order's coupon still exists |
| Fulfillment.CodPlacedEffects | core/views.py:742-779 | a placed COD order is shipped and unpaid with its coupon kept; stock is deducted; the cart is emptied; no other order changes |
| Fulfillment.CodKeepsCheckoutTotal | core/views.py:750-753 | an order that checkout priced keeps its stored amount and its coupon through COD when that amount is positive; otherwise it is charged the item total rounded half up, which is the stored subtotal |
| Fulfillment.CodDiscount | core/views.py:791-798 | without a coupon the discount is 0; with one it is never above the cap nor above `subtotal × pct / 100` |
| Fulfillment.CodDetail | core/views.py:785-803 | the page is shown, not 404, exactly for an order of the requesting user, and an order without a coupon shows a discount of 0 |
| Fulfillment.CodDetailShowsCheckoutDiscount | core/views.py:785-798 | after a priced checkout the detail page shows the discount checkout took off |
| Fulfillment.CodDiscountIsDiscount | core/views.py:792-798 | the detail page computes the discount as checkout does |
| Fulfillment.CodAccept | core/views.py:808-818 | `cod_accept` sets the user's order to processing and unpaid, whatever its status |
| Fulfillment.MarkPaid | core/views.py:477-480 | an unpaid order becomes paid and processing; a paid order is left as it is |
| Fulfillment.MarkPaidIdempotent | core/views.py:477-480 | marking an order paid twice is marking it once |
| Fulfillment.PaymentCompletedNeverSucceeds | core/views.py:474-475 | the view as routed and written never completes a payment, while the intended view does |
| Fulfillment.PaymentCompleted | core/views.py:474-480 | the intended view marks an existing order paid and keeps its owner and amount |
| Fulfillment.CompletePayment | core/views.py:474-485 | the intended view updates the order table accordingly |
| Addresses.DefaultSpec | core/views.py:346-360 | a missing id is refused, a non-number fails, and only an address of the user becomes the default |
| Addresses.WithDefault | core/views.py:351-356 | setting a default keeps every address and its owner, and leaves other users' addresses untouched |
| Addresses.MakeAddressDefault | core/views.py:345-360 | clears the user's defaults and sets the chosen one, or rolls back |
| Addresses.ExactlyOneDefault | core/views.py:351-356 | after success exactly one of the user's addresses is the default, and other users' addresses are untouched |
| Addresses.WithDefaultIdempotent | core/views.py:353-356 | choosing the same default again changes nothing |
| OrderStatus.Rank | useradmin/views.py:398-410 | pending ranks 1, processing 2, shipped 3, delivered 4, and any other status 0 |
| OrderStatus.DecideStatus | useradmin/views.py:405-419 | a status is accepted only when posted and ranked at least as high as the current one; the save fails only for a missing status on an order outside the progression |
| OrderStatus.AcceptExactlyForward | useradmin/views.py:405-419 | a status is stored exactly when it ranks at least as high as the current one; for a delivered order only delivered is accepted; the same status is always accepted; a delivered order is refused as delivered exactly for any other posted status |
| OrderStatus.RankNeverDrops | useradmin/views.py:405-419 | over any run of changes the rank never drops and a delivered order stays delivered |
| OrderStatus.ChangeOrderStatus | useradmin/views.py:386-427 | only the vendor's own order, on a POST, gets an accepted status; everything else leaves it unchanged |
| OrderStatus.CodAcceptMovesBackward | useradmin/views.py:410-416 | the move `cod_accept` makes, shipped to processing, is one the vendor's view refuses |
| Forms.CleanAmount | useradmin/forms.py:121-125 | a missing or non-positive price is refused |
| Forms.CleanStockCount | useradmin/forms.py:127-131 | a missing or negative stock is refused, and 0 is accepted |
| Forms.CleanOldPrice | useradmin/forms.py:133-138 | a negative old price is refused, and an absent or zero one becomes 0 |
| Forms.CleanLife | useradmin/forms.py:140-148 | an empty life becomes 0, and a negative one is refused |
| Forms.CleanMfd | useradmin/forms.py:150-155 | a manufacture date after now is refused |
| Forms.CleanProductForm | useradmin/forms.py:13-155 | an accepted product form has a non-empty title within its column, a price of at least 0.01 and an old price of at least 0, both in whole cents within their column, a date not after now, and an existing category |
| Forms.FitsDecimalWider | core/models.py:346-347 | a number that fits a decimal column also fits any wider one |
| Forms.FitsDecimalCents | core/models.py:346-347 | a whole number of cents fits exactly when it is below the column's bound; 1.234 does not fit and 0 does |
| Forms.ProductFormAccepts | useradmin/forms.py:13-155 | the product form is accepted exactly when the stripped title is non-empty and fits its column, the price is at least 0.01 with whole cents within its column, the old price is absent or non-negative with whole cents within both its form field and its column, the stock is given and non-negative, the life is absent or non-negative, the date is not after now, and an existing category is chosen; the cleaned form carries that category |
| Forms.CleanCode | useradmin/forms.py:198-215 | the code is `upper().strip()`, refused when empty, shorter than 3, or another coupon's code |
| Forms.CleanExpiry | useradmin/forms.py:217-221 | an expiry at or before now is refused |
| Forms.CleanDiscount | useradmin/forms.py:223-231 | a missing percentage or one outside [0, 100] is refused |
| Forms.CleanCouponForm | useradmin/forms.py:157-242 | an accepted coupon belongs to the vendor, has a code of at least 3 characters that no other coupon has, a percentage in [0, 100], an expiry after now, whole-cent amounts within their column, and a cap no greater than a non-zero minimum |
| Forms.CouponFormAccepts | useradmin/forms.py:157-242 | the coupon form is accepted exactly when the stripped code fits its column and canonicalises to a free code of at least 3 characters, the percentage is in [0, 100], the expiry is after now, both amounts are given with whole cents within their column, and the cap does not exceed a non-zero minimum |
| Forms.AcceptedCouponTotal | useradmin/forms.py:233-242 | an accepted coupon with a non-negative cap keeps checkout's total in [0, subtotal]; a negative cap raises it |
| ProductAdmin.ListingRule | useradmin/views.py:158-176 | a save publishes (listed, in stock) or drafts (unlisted, out of stock) and nothing else; it publishes exactly when Publish is pressed with price and stock, or was already published |
| ProductAdmin.Listing | useradmin/views.py:158-176 | a save changes only the three listing flags, and leaves the product published or a draft |
| ProductAdmin.StripKeepsOut | useradmin/views.py:183 | a stripped piece has no comma |
| ProductAdmin.TagsOfWellFormed | useradmin/views.py:183 | every tag is non-empty, stripped and comma-free, and there are no more tags than pieces |
| ProductAdmin.SplitTagsSpec | useradmin/views.py:181-183 | the tags are at most one more than the commas; text without a comma gives its stripped self or nothing |
| ProductAdmin.SplitWithout | useradmin/views.py:183 | text without a comma splits into itself |
| ProductAdmin.TagsOf | useradmin/views.py:183 | the stripped pieces keep only the non-empty ones, so there are no more tags than pieces |
| ProductAdmin.SplitTags | useradmin/views.py:181-183 | no tag is empty, and there are no more tags than comma-separated pieces |
| ProductAdmin.NewFromForm | useradmin/views.py:153-183 | an added product is the vendor's, with the form's title, price and stock and the split tags |
| ProductAdmin.AddProduct | useradmin/views.py:145-198 | a form that passes every field check, including the required existing category, the title length and the price digits, adds one product under the new key; an invalid one adds nothing |
| ProductAdmin.AddPublishesWithStock | useradmin/views.py:158-176 | a product added with Publish is published exactly when its stock is positive; any other is a draft |
| ProductAdmin.EditProduct | useradmin/views.py:217-268 | a missing product, another vendor's product or an invalid form (a missing or unknown category, a title too long or a price with too many digits among the causes) changes nothing; otherwise the product is overwritten |
| ProductAdmin.Edited | useradmin/views.py:239-267 | an edited product takes the form's fields and the vendor, keeps its tags and image, and is published exactly when Publish is pressed with price and stock, or when it was published and Publish is not pressed |
| ProductAdmin.EditKeepsPublished | useradmin/views.py:256-262 | saving a published product without Publish keeps it published even with no stock, and its tags are kept |
| ProductAdmin.DeleteProduct | useradmin/views.py:307-325 | the vendor's product is soft-deleted; another vendor's product is untouched |
| ProductAdmin.SoftDeleted | useradmin/views.py:314-317 | a deleted product is unlisted, out of stock and marked deleted, and the rest of the record is kept |
| ProductAdmin.RestoreProduct | useradmin/views.py:739-759 | only a deleted product of the vendor is restored; another is left unchanged |
| ProductAdmin.Restored | useradmin/views.py:748-751 | a restored product is never deleted; a product that was not deleted is unchanged; only the listing flags change |
| ProductAdmin.DeleteRestoreRoundTrip | useradmin/views.py:315-317 | delete keeps the record; restore after delete gives an unlisted draft; both are idempotent |
| CouponTags.EndOfDay | useradmin/templatetags/coupon_tags.py:145-149 | a day's last instant lies inside the day |
| CouponTags.StatusBadge | useradmin/templatetags/coupon_tags.py:8-42 | no date gives no badge; inactive gives the inactive badge exactly; an active badge means the coupon has not expired |
| CouponTags.IsExpired | useradmin/templatetags/coupon_tags.py:128-154 | no date is never expired, and a date-only expiry is not reached before the last instant of its day |
| CouponTags.StatusClass | useradmin/templatetags/coupon_tags.py:156-181 | success exactly for an active unexpired coupon with a date, danger exactly for an active expired one, secondary for an inactive one or no date |
| CouponTags.DaysUntilExpiry | useradmin/templatetags/coupon_tags.py:183-204 | the days left are the time left in whole days rounded down; no date gives 0 |
| CouponTags.HasFilters | useradmin/templatetags/coupon_tags.py:94-119 | filters are flagged exactly when the search or the status filter is non-empty |
| CouponTags.BadgeCases | useradmin/templatetags/coupon_tags.py:16-35 | there is a badge exactly when the coupon has an expiry; for an expiry that is a moment, exactly one badge applies: active when active and unexpired, inactive whenever inactive, expired otherwise |
| CouponTags.ClassMatchesBadge | useradmin/templatetags/coupon_tags.py:156-181 | the colour follows the badge, and an active badge means not expired |
| CouponTags.DayBadgeDisagrees | useradmin/templatetags/coupon_tags.py:20-22 | for a date-only expiry the badge counts from the start of the day and the expiry test to its end, so they disagree during that day |
| CouponTags.DaysUntilExpirySign | useradmin/templatetags/coupon_tags.py:183-204 | the days left are the difference floored to whole days: not negative before the expiry, at most 0 once expired |
| CouponTags.HasFiltersCases | useradmin/templatetags/coupon_tags.py:99-112 | filters are shown exactly when a search or status filter is present |
| CouponAdmin.Listed | useradmin/views.py:556-587 | the listing shows only the vendor's coupons |
| CouponAdmin.Visible | useradmin/views.py:556-564 | the listing shows only the vendor's coupons, and always shows an active or unused one of theirs |
| CouponAdmin.PassesFilter | useradmin/views.py:579-587 | an unknown status filter, or `deleted` while deleted coupons are hidden, filters nothing |
| CouponAdmin.ListingHidesRetired | useradmin/views.py:556-587 | by default inactive used coupons are hidden; with deleted coupons shown the `deleted` filter lists exactly those |
| CouponAdmin.FiltersMatchBadge | useradmin/views.py:580-587 | the active and inactive filters list exactly the coupons with that badge; the expired filter lists the expired ones |
| CouponAdmin.AddCoupon | useradmin/views.py:608-628 | a valid form stores the cleaned coupon under the new key with a canonical code, and codes stay unique |
| CouponAdmin.EditCoupon | useradmin/views.py:632-654 | only the vendor's coupon is updated; its own code is not a duplicate; codes stay unique |
| CouponAdmin.AcceptedCodeFree | useradmin/views.py:608-654 | a coupon from an accepted form belongs to the vendor and has an upper-case, stripped, canonical code that no other coupon has |
| CouponAdmin.SaveKeepsUnique | useradmin/views.py:608-654 | storing a coupon whose code no other coupon has keeps codes unique |
| CouponAdmin.DeleteCoupon | useradmin/views.py:658-703 | a non-AJAX request, another vendor's coupon, or a coupon used by an order is kept; otherwise it is removed |
| CouponAdmin.RemovalKeepsOrdersResolved | useradmin/views.py:664-678 | removing an unused coupon leaves no order pointing at a missing coupon |
| CouponAdmin.Toggle | useradmin/views.py:729 | the toggle negates `active` and changes nothing else |
| CouponAdmin.ToggleCoupon | useradmin/views.py:726-735 | only the vendor's coupon is toggled |
| CouponAdmin.ToggleTwice | useradmin/views.py:729 | two toggles restore the coupon |
| DiscountFilters.DiscountPercentage | core/templatetags/discount_filters.py:5-11 | the filter shows a value only for a product, and it is then the product's own whole-number percentage: rounding it once more changes nothing |
| DiscountFilters.DiscountPercentageSpec | core/templatetags/discount_filters.py:5-11 | a percentage is shown exactly for a positive product percentage, as that whole number, at least 1 |
| DiscountFilters.NoDropShowsNothing | core/templatetags/discount_filters.py:9-11 | no old price, or no price drop, shows nothing |

## Left out

- The PayPal form and gateway URLs of `checkout`, and the PayPal IPN. They are calls to an external service.
- Rendering, `messages`, redirects and template context. Each view is reduced to its outcome and its change of state.
- Search, sorting and pagination of the listings. `CouponAdmin.Listed` models the coupon listing with an empty search box.
- Locking and concurrency. This covers `select_for_update` and the race in `get_or_create`. Each atomic block is all or nothing.
- Float artefacts of `float()` prices and of `Coupon.discount` read as a float. Money is exact until a money column stores it rounded to cents.
- The number of digits a money column holds (`max_digits`). A value too wide for its column is not modelled as a database error.
- Time zones. Naive and aware datetimes are the same integer clock.
- Images and their upload. This covers Cloudinary fields, the product image that add and edit create, and `Vendor.add_image`.
- Tag storage internals. A product's tags are the list the view computes, and the tag library is not part of this model.
- The `frozen_order_id` session key that `cod_checkout` pops. No modelled rule reads it.
- Authentication and the vendor gate. The user and vendor are parameters.
- Fulfillment.CodCheckout: requires that product titles are unique. With duplicate titles the lookup by title raises half-way through a loop that is not atomic, which this model does not capture.
- Checkout.CheckoutCharges: no longer promises that the subtotal equals the cart page's total for every cart. The source reads the subtotal back from line items rounded to cents, so it equals that total only when the cart's prices are whole cents, and it is otherwise within half a cent per line of it. Nor does it promise that the stored amount equals the total the page shows: the column keeps that total rounded to cents.
- Fulfillment.CodKeepsCheckoutTotal: promises that COD keeps the amount checkout stored, which is the total rounded to cents, not the unrounded total the checkout page shows.
- Checkout.Usable: a quantity that does not fit the positive-integer column is a failure of the whole request. The database's own check is not modelled further.
- Models.GetPercentage: the `try`/`except` that returns 0 on an error is not modelled, since no exact decimal division by a positive old price raises.
- Pricing.Discount: `max_discount_amount` is assumed to be a number. A stored cap is always one.
- Text.Upper: maps only the ASCII letters a–z. Python's `str.upper()` also maps other letters and can lengthen the text ('ß' becomes 'SS'). So a coupon code such as 'ßa', which the source accepts as 'SSA', is refused here as too short, and `Text.UpperIsUpper` and `Text.CanonicalCodeIdempotent` hold for this ASCII map only.
- core/constants.py, which holds the maximum title and code lengths and the digits of the money columns, is not part of this model. Those limits are the `Forms.FieldLimits` parameter. The old price's own form field uses the 10 digits and 2 places defined next to the forms.
- Forms.ProductFormAccepts: whole cents are checked on the exact value. Django's decimal check also counts trailing zeros as typed, so '1.500' is refused there and accepted here. The same holds for `Forms.CouponFormAccepts`.
- Forms.CouponFormAccepts: trailing zeros as typed are not counted, as above.
- The range of the positive-integer columns (stock and life) is whatever the database backend enforces, and it is not modelled.
- The product form's description, specifications, type, image and digital fields are not modelled, and neither is the type's maximum length. No modelled rule reads them.

## Findings

| source | as written | input that shows it | evidently intended | confidence | as-written member | corrected member |
|---|---|---|---|---|---|---|
| core/views.py:474-480 | the route `payment-completed/` (core/urls.py:15) passes no `oid`, and the view looks up `CartOrder.objects.get(oid=oid)`, a field the order does not have (modelled by `PaymentCompletedAsWritten`), so every request fails | any request to `payment-completed/`, for example one for an existing unpaid order 7 | the order with that id is marked paid and processing when unpaid | high, not executed | Fulfillment.PaymentCompletedNeverSucceeds | Fulfillment.PaymentCompleted |
