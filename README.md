# Karupatti Shop in Dafny

A Dafny model of the bookkeeping core of the Karupatti Shop, a Django marketplace
where sellers run shops and buyers order palm-jaggery products. The model covers
the money and the state that the views and models change:

- the session cart in both of its shapes: the bare-quantity cart of `store/views.py`
  and the line-snapshot cart of `store/bootstrap_views.py`, with the pages, totals
  and checkout that read them;
- coupons and events (`promotions/models.py`) and the views that apply a coupon and
  price an event's products;
- orders: numbering, item subtotals, the fee split, checkout totals, order creation
  with its stock decrements and coupon redemption, and cancellation
  (`orders/models.py`, `orders/views.py`);
- seller settlement: the payment signal and the gateway webhook crediting seller
  wallets, the checkout amounts sent to the gateway, payout requests and the admin
  actions that pay, approve or reject them (`orders/signals.py`, `payments/`);
- refunds: the request state machine, the Refund row, store credit with its
  transaction log, the customer views and the admin bulk actions (`refunds/`);
- user roles and the single-default address rule (`accounts/models.py`);
- wishlists and buyer-seller chat (`wishlist/`, `chat/`).

Database tables are Dafny maps or sequences. Autoincrement ids are counters or
positions. Decimal amounts are `real`, and the code's `quantize` calls are written
out as rounding functions. Every view is a function or a method. It takes the request's
fields as parameters; a view with more than one response returns an outcome datatype,
one constructor per response it can give. A Python exception the view does not catch is
an outcome of its own. It changes no state unless the view had already saved rows
before it raised; then the outcome keeps those rows (`OrderViews.CreateOrder`'s
`ItemRejected`). Where the code updates rows in place (wallets, stock,
payout and refund rows, conversations), the model is a class whose methods say
the whole new state. Time and generated uuids are parameters.

Modules, one file each: `Wrappers`/`Ids` (wrappers.dfy), `Money`, `Text`, `Serials`,
`Accounts`, `Catalog`, `Carts`, `Sessions`, `StoreViews`, `BootstrapViews`,
`Promotions`, `PromotionViews`, `Orders`, `OrderViews`, `Ledger`, `Signals`,
`PaymentViews`, `PayoutAdmin`, `Refunds`, `RefundViews`, `RefundAdmin`, `Wishlists`,
`Chat`, `ChatViews`.

Behaviours the code has that a reader may not expect are stated and proved as they
are:

- the webhook has no replay guard, so a second delivery credits the wallets again
  (`PaymentViews.WebhookReplayCreditsTwice`);
- the payout admin can re-approve a paid payout, which then pays out twice
  (`PayoutAdmin.ReapprovedPayoutPaysTwice`);
- order creation decrements stock without checking availability;
- the refund admin reports the size of the whole selection.

Two details of the code that the model keeps as written:

- `refunds/views.py:38` admits orders in status 'delivered' or 'completed', but
  'completed' is not one of the order statuses of `orders/models.py:10-16`, so only
  delivered orders qualify;
- `RefundRequest.approve` (`refunds/models.py:67-82`) saves the approved request before
  it inserts the Refund row; when the request already has a refund, the insert breaks
  the one-to-one constraint and the saved approval stays (`Refunds.RefundDesk.Approve`).

## Model

| member | source | states |
|---|---|---|
| Money.RoundHalfEven | django_backend/payments/views.py:58 | `quantize(Decimal("1"))`: the result is within one half of the amount, and an exact tie goes to the even integer |
| Money.RoundIntegral | django_backend/payments/views.py:58 | rounding a whole number gives it back |
| Money.Cents | django_backend/payments/views.py:143-145 | `quantize(Decimal("0.01"))`: the result is whole cents and within half a cent of the amount |
| Money.CentsOfCents | django_backend/payments/views.py:145 | quantizing an amount that is already whole cents leaves it unchanged |
| Money.CentsClosed | django_backend/payments/views.py:145-157 | sums and differences of whole-cent amounts are whole cents |
| Text.StripLeftSuffix | django_backend/promotions/views.py:63 | the leading part of `strip()` drops exactly the leading white space: the result is a suffix that starts with no space |
| Text.StripRightPrefix | django_backend/promotions/views.py:63 | the trailing part drops exactly the trailing white space: the result is a prefix that ends with no space |
| Text.StripEnds | django_backend/promotions/views.py:63 | a stripped string neither starts nor ends with white space |
| Text.StripBlank | django_backend/chat/views.py:76-79 | a stripped string is empty exactly when the input is all white space |
| Text.UpperChar | django_backend/promotions/views.py:63 | a lower-case ASCII letter becomes the capital 32 code points below it; every other character is kept; the result is never a lower-case letter |
| Text.Upper | django_backend/promotions/views.py:63 | `upper()` keeps the length |
| Text.UpperAt | django_backend/promotions/views.py:63 | each character of `upper()` is the upper case of the input's character at the same place |
| Text.UpperIdempotent | django_backend/promotions/views.py:63 | upper-casing twice is the same as upper-casing once |
| Text.DigitChar | django_backend/payments/views.py:35 | the digit character of `d` is `'0'` plus `d` |
| Text.NatToString | django_backend/payments/views.py:35 | `str(pid)` for a natural number is a non-empty string of decimal digits |
| Text.NatToStringValue | django_backend/payments/views.py:35 | the digits of `str(n)` spell `n` back, with no leading zero unless `n` is 0 |
| Text.UpperHex | django_backend/orders/models.py:78 | upper-casing lower-case hexadecimal digits gives upper-case hexadecimal digits |
| Serials.Serial | django_backend/orders/models.py:78 | the prefix followed by `width` upper-case hex digits cut from a uuid4 hex string |
| Serials.OrderNumber | django_backend/orders/models.py:76-78 | an order number is "ORD-" and 12 upper-case hex digits, 16 characters long |
| Serials.RequestNumber | django_backend/refunds/models.py:60-65 | a refund request number is "REF" and 8 upper-case hex digits |
| Serials.RefundNumber | django_backend/refunds/models.py:137-142 | a refund number is "RFD" and 8 upper-case hex digits |
| Serials.AssignOnce | django_backend/orders/models.py:71-74 | a number already set is kept, and an empty one is replaced by exactly the generated number |
| Serials.SaveAgainKeepsNumber | django_backend/orders/models.py:71-74 | saving a second time, whatever number is generated then, keeps the number the first save assigned |
| Accounts.NewUser | django_backend/accounts/models.py:15 | a new user's role is 'buyer' |
| Accounts.RolePredicates | django_backend/accounts/models.py:29-39 | buyer and seller exclude each other, a new user is a buyer, and a seller who is not a superuser is not an admin |
| Accounts.SaveAddress | django_backend/accounts/models.py:81-85 | the saved row is written under its id and no row is lost |
| Accounts.SaveKeepsOneDefault | django_backend/accounts/models.py:81-85 | saving keeps at most one default address per user, and a saved default is the user's only default |
| Accounts.SaveLeavesOthers | django_backend/accounts/models.py:83 | saving a non-default address, or saving for another user, leaves every other address unchanged |
| Accounts.AddressBook.constructor | django_backend/accounts/models.py:60-71 | the address table starts empty and valid |
| Accounts.AddressBook.Save | django_backend/accounts/models.py:81-85 | the bulk update then the write give `SaveAddress` of the old table, and the one-default invariant is kept |
| Catalog.Inventory.constructor | django_backend/orders/views.py:177-178 | the product table starts as the given rows, whose stock checkout then updates in place |
| Sessions.Session.constructor | django_backend/store/views.py:95-112 | a fresh session has an empty cart, no applied coupon, cart discount 0 and no pending order, and its cart has no repeated key |
| Carts.KeysOfAt | django_backend/store/views.py:161-164 | the key of every cart line is among the keys the cart iterates |
| Carts.Lookup | django_backend/store/views.py:131 | `cart.get(k)` finds a line exactly when the key is in the cart |
| Carts.LookupAt | django_backend/store/views.py:99 | in a cart without repeated keys, looking up an item's key yields that item's line |
| Carts.Put | django_backend/store/views.py:149 | `cart[k] = line`: `k` now holds `line`, every other key keeps its line, the key set gains `k`, keys stay distinct, and the length grows only for a new key |
| Carts.Pop | django_backend/store/views.py:162 | `cart.pop(k, None)`: `k` is gone, every other key keeps its line, keys stay distinct, and an absent key leaves the cart as it was |
| Carts.PopIdempotent | django_backend/store/views.py:161-164 | removing a key twice is removing it once |
| Carts.OrderQuantity | django_backend/orders/views.py:106-109 | the quantity read from a line: the bare value, or the dictionary's `qty` with default 1 |
| StoreViews.PutPut | django_backend/store/views.py:149 | writing a key twice leaves only the second value |
| StoreViews.AddQuantity | django_backend/store/views.py:131-134 | a new key gets `qty`, a present quantity grows by `qty`, other keys are unchanged; it raises exactly when the present line is a dictionary |
| StoreViews.AddTwice | django_backend/store/views.py:131-134 | adding `a` and then `b` equals adding `a + b` |
| StoreViews.SetQuantity | django_backend/store/views.py:148-151 | a positive quantity becomes the line, any other quantity removes it; other keys are unchanged |
| StoreViews.SetQuantityIdempotent | django_backend/store/views.py:148-151 | submitting the same update twice equals submitting it once |
| StoreViews.CartAdd | django_backend/store/views.py:123-140 | 404 unless the product is live; only a POST changes the cart, to `AddQuantity` of it; nothing else in the session changes |
| StoreViews.CartUpdate | django_backend/store/views.py:142-157 | only a POST changes the cart, to `SetQuantity` of it; nothing else changes |
| StoreViews.CartRemove | django_backend/store/views.py:159-168 | the cart loses the key and nothing else changes |
| StoreViews.StoreLinesCrash | django_backend/store/views.py:99-110 | the cart page raises exactly when a live product's line is a dictionary |
| StoreViews.StoreSubtotalIsCheckoutSubtotal | django_backend/store/views.py:99-113 | where the page does not raise, its subtotal equals the subtotal the order checkout computes from the same cart |
| StoreViews.StoreLinesStep | django_backend/store/views.py:99-110 | how one cart item adds a row, skips, or raises |
| StoreViews.CollectStoreLines | django_backend/store/views.py:99-110 | the loop yields the rows of the live products and their summed line totals, or raises exactly where `StoreLines` does |
| StoreViews.LineSumAppend | django_backend/store/views.py:103 | `subtotal += line_total` adds the new row's line total |
| StoreViews.CartPage | django_backend/store/views.py:93-121 | the page's rows, a subtotal equal to the order checkout's subtotal, the session discount, and total = subtotal − discount |
| StoreViews.DiscountAfter | django_backend/store/views.py:172-179 | the discount becomes 10 exactly for a POST whose stripped, upper-cased code is "SAVE10"; in every other case it is kept |
| StoreViews.Save10Matches | django_backend/store/views.py:173-176 | the lower-case code "save10" is accepted |
| StoreViews.ApplySave10 | django_backend/store/views.py:170-181 | only the cart discount may change, to `DiscountAfter` of the old one |
| BootstrapViews.QtyCountPut | django_backend/store/bootstrap_views.py:44 | writing one line changes the count by the new quantity minus the old one |
| BootstrapViews.SnapshotAddLine | django_backend/store/bootstrap_views.py:34-41 | a new key gets `{qty, price, name}` from the product; a present line only gains `qty` and keeps its price snapshot; other keys are unchanged; it raises exactly when the present line has no `qty` |
| BootstrapViews.AddedLine | django_backend/store/bootstrap_views.py:33-42 | the written line exists exactly when the key is new or its line has a quantity, and its quantity is the old one (0 when new) plus the added amount |
| BootstrapViews.AddRaisesCount | django_backend/store/bootstrap_views.py:41-44 | adding `q` raises the reported count by exactly `q` |
| BootstrapViews.AddToCart | django_backend/store/bootstrap_views.py:28-45 | POST only, 404 for a missing product; the cart becomes `SnapshotAdd` of it; an XMLHttpRequest reports the new `QtyCount`; a request that raises changes nothing |
| BootstrapViews.UpdatedCart | django_backend/store/bootstrap_views.py:66-73 | the quantity is clamped at 0; 0 removes the line, a positive quantity replaces `qty`; an absent key is unchanged; it raises exactly for a bare-quantity line and a positive quantity |
| BootstrapViews.UpdateCart | django_backend/store/bootstrap_views.py:64-75 | a non-POST answers 405; a POST crashes iff `UpdatedCart` raises, and is updated iff it does not; the cart becomes `UpdatedCart` of it only when updated |
| BootstrapViews.RemoveFromCart | django_backend/store/bootstrap_views.py:77-81 | the cart loses the key and nothing else changes |
| BootstrapViews.BootSumAppend | django_backend/store/bootstrap_views.py:60 | `total += line_total` adds the new row's line total |
| BootstrapViews.BootLinesStep | django_backend/store/bootstrap_views.py:51-61 | how one cart item adds a row, skips, or raises |
| BootstrapViews.CartView | django_backend/store/bootstrap_views.py:47-62 | the loop yields one row per line whose product exists, priced at the snapshot, with the summed total; it raises exactly where `BootLines` does |
| BootstrapViews.CheckoutTotalIsCartTotal | django_backend/store/bootstrap_views.py:93 | while every product still exists, the checkout total equals the cart page's total and they raise together |
| BootstrapViews.CheckoutView | django_backend/store/bootstrap_views.py:83-94 | an empty cart changes nothing; a POST empties the cart; otherwise the shown total is the sum of price × qty |
| Promotions.EventPhases | django_backend/promotions/models.py:54-65 | an inactive event is neither ongoing nor upcoming; an active event with start ≤ end is in exactly one of ongoing, upcoming and expired |
| Promotions.DiscountedPrice | django_backend/promotions/models.py:67-70 | the price falls by exactly `price × pct / 100`; with pct in [0, 100] and a non-negative price the result lies in [0, price]; 0% keeps the price and 100% gives 0 |
| Promotions.IsValid | django_backend/promotions/models.py:116-125 | valid iff active, inside [valid_from, valid_until], and below `usage_limit` when that is set and non-zero |
| Promotions.CanUse | django_backend/promotions/models.py:127-140 | the first failing check in the order validity, minimum purchase, per-user count names the refusal; usable iff all three pass |
| Promotions.CalculateDiscount | django_backend/promotions/models.py:142-156 | the discount is at most the cart total, at most the percentage or fixed amount, at most a set non-zero cap, and equal to one of the three |
| Promotions.DiscountInRange | django_backend/promotions/models.py:142-156 | with non-negative inputs the discount lies between 0 and the cart total |
| Promotions.UncappedPercentage | django_backend/promotions/models.py:144-145 | without a cap, a percentage of at most 100 takes exactly that share of the cart total |
| Promotions.UsageCountAppend | django_backend/promotions/models.py:136 | recording a usage adds one to that user's count for that coupon and changes no other count |
| Promotions.GlobalLimitRefuses | django_backend/promotions/models.py:123-130 | a coupon that reached its global limit is refused whatever the user's count |
| Promotions.PerUserLimitRefuses | django_backend/promotions/models.py:136-138 | once a user's recorded usages reach `usage_limit_per_user`, that user is refused |
| Promotions.CouponBook.constructor | django_backend/promotions/models.py:73-94 | the coupon table keyed by code, with no usages |
| Promotions.CouponBook.Redeem | django_backend/orders/views.py:183-191 | one CouponUsage row is appended and that coupon's `times_used` rises by one; no other coupon changes |
| Orders.SaveItem | django_backend/orders/models.py:106-108 | the saved subtotal is price × quantity whatever was passed, and no other field changes |
| Orders.SaveItemIdempotent | django_backend/orders/models.py:106-108 | saving an item twice equals saving it once |
| Orders.SaveOrder | django_backend/orders/models.py:71-74 | an order that has a number is saved unchanged; an empty number becomes exactly the generated one; no other field changes |
| Orders.SaveOrderTwice | django_backend/orders/models.py:71-74 | a second save keeps the number of the first, whatever the generator offers |
| Orders.NewOrder | django_backend/orders/models.py:53-82 | a new order is 'pending' in both statuses, is not paid, has an "ORD-" number of 12 hex digits, and carries the given amounts |
| Orders.OrderBook.constructor | django_backend/orders/models.py:21-62 | the orders table starts empty |
| OrderViews.OrderLines | django_backend/orders/views.py:103-120 | at most one line per cart item, and only for live products |
| OrderViews.OrderLinesKeys | django_backend/orders/views.py:103-120 | exactly the cart keys whose product exists and is active become lines; the others are skipped |
| OrderViews.OrderLinesDistinct | django_backend/orders/views.py:103-120 | a cart with distinct keys gives lines for distinct products |
| OrderViews.OrderLinesEntry | django_backend/orders/views.py:105-111 | each line is the current product with the quantity stored under its key, from either line shape, and its total is price × quantity |
| OrderViews.OrderLinesStep | django_backend/orders/views.py:103-120 | one loop step: a live item adds its line, any other item is skipped |
| OrderViews.CollectLines | django_backend/orders/views.py:100-120 | the loop builds exactly `OrderLines` of the cart and a subtotal equal to the sum of their totals |
| OrderViews.ComputeTotals | django_backend/orders/views.py:122-133 | shipping is 10.00, tax is 8% of the subtotal unrounded, the discount is the applied coupon's or 0, and total = subtotal + shipping + tax − discount |
| OrderViews.Checkout | django_backend/orders/views.py:14-55 | an empty cart shows nothing; otherwise the totals of the live lines |
| OrderViews.MakeItem | django_backend/orders/views.py:155-175 | an item snapshots the product's name, shop and price, its subtotal is price × quantity, the fee is 10% of it, and fee + seller amount = subtotal |
| OrderViews.FeeSplitBounds | django_backend/orders/views.py:162-163 | for a non-negative subtotal both the fee and the seller amount lie between 0 and the subtotal |
| OrderViews.MakeItems | django_backend/orders/views.py:157-175 | one item per line, in cart order, with consecutive item ids |
| OrderViews.Decrement | django_backend/orders/views.py:177-179 | the product table keeps its keys |
| OrderViews.Restore | django_backend/orders/views.py:284-287 | the product table keeps its keys |
| OrderViews.DecrementAt | django_backend/orders/views.py:177-179 | each product's stock drops by exactly the quantity ordered of it, with no availability check, and nothing else about it changes |
| OrderViews.RestoreAt | django_backend/orders/views.py:284-287 | each existing product gets back exactly the quantity the items hold of it; items whose product is gone are skipped |
| OrderViews.ItemQtyOfLines | django_backend/orders/views.py:165-175 | the items hold per product exactly the quantity the lines ordered |
| OrderViews.CancelUndoesStock | django_backend/orders/views.py:177-179 | cancelling an order straight after placing it restores every product's stock |
| OrderViews.DecrementStep | django_backend/orders/views.py:177-179 | one loop step of the decrement |
| OrderViews.StoredPrefix | django_backend/orders/views.py:157-179 | the lines before the first negative quantity, which the `PositiveIntegerField` of `OrderItem.quantity` rejects; every line before it is non-negative |
| OrderViews.StoredAllIffNonNegative | django_backend/orders/views.py:157-179 | every line is stored iff no line has a negative quantity |
| OrderViews.PlaceItems | django_backend/orders/views.py:157-179 | the loop succeeds iff every line is stored; it writes `MakeItems` of the stored lines and leaves the stock at `Decrement` of the old table by them, so a rejected line keeps the earlier items and decrements |
| OrderViews.PlacedOrder | django_backend/orders/views.py:136-152 | the created order has the computed totals, the copied address, payment 'pending', and status 'processing' for "cod" and 'pending' otherwise |
| OrderViews.RecordOrder | django_backend/orders/views.py:136-179 | the order is stored under its new number with the next id, the item ids advance by the number of stored lines, and stock drops by what they ordered; it reports whether every line was stored, and an order whose lines stopped early keeps status 'pending' |
| OrderViews.RedeemApplied | django_backend/orders/views.py:181-196 | an existing applied coupon gets one usage row and `times_used + 1`, and leaves the session; an unknown or empty code changes nothing |
| OrderViews.SettleOrder | django_backend/orders/views.py:181-214 | an existing applied coupon is redeemed once and leaves the session, otherwise coupons and session coupon are untouched; "cod" empties the cart; "stripe" and "paypal" record the order as pending payment |
| OrderViews.CreateOrder | django_backend/orders/views.py:77-216 | the view saves an order iff the request is a POST with a non-empty cart, a payment method, and an address of the user; otherwise nothing changes; the order is placed iff also no line has a negative quantity, and otherwise the answer is `ItemRejected` with the order row, the earlier items and their stock decrements saved and the session and coupons untouched; a placed order has the computed totals, items and stock decrement, redeems the coupon once, empties the cart only for "cod", and records the order as pending payment only for "stripe" and "paypal" |
| OrderViews.RestoreStock | django_backend/orders/views.py:284-287 | the loop leaves the stock at `Restore` of the old table |
| OrderViews.CancelOrder | django_backend/orders/views.py:273-293 | only a POST on the user's own pending or processing order cancels it and restores its stock; any other request changes nothing |
| OrderViews.CheckoutExample | django_backend/orders/views.py:100-179 | 2 × 10.00 and 1 × 5.00 give subtotal 25.00, tax 2.00 and total 37.00; a 10% coupon takes 2.50 off; each stock drops by its quantity |
| Ledger.PutBalanced | django_backend/payments/models.py:19-23 | writing a balanced wallet keeps every wallet balanced |
| Ledger.GetOrCreateBalanced | django_backend/payments/views.py:164 | fetching or creating a seller's wallet keeps every wallet balanced |
| Ledger.PutCents | django_backend/payments/models.py:21-23 | writing a whole-cent wallet keeps every wallet in whole cents |
| Ledger.Credit | django_backend/orders/signals.py:27-28 | a credit raises balance and total earned by the same amount, leaves total withdrawn, and keeps balance = earned − withdrawn |
| Ledger.Withdraw | django_backend/payments/admin.py:33-34 | a withdrawal lowers the balance and raises total withdrawn by the same amount with no check that the balance covers it, and keeps balance = earned − withdrawn |
| Ledger.CentsCredit | django_backend/payments/views.py:156-157 | the webhook's credit leaves each sum in whole cents, within half a cent of the exact sum |
| Ledger.CentsCreditExact | django_backend/payments/views.py:156-157 | on a whole-cent wallet and amount the webhook's credit is the exact credit and stays in whole cents |
| Ledger.CentsCreditCanUnbalance | django_backend/payments/views.py:156-157 | on a wallet that is not in whole cents the two roundings can break balance = earned − withdrawn |
| Ledger.CreditAll | django_backend/orders/signals.py:26-29 | crediting a run of Earning rows keeps every existing wallet and creates the missing ones |
| Ledger.CreditAllBalanced | django_backend/orders/signals.py:26-29 | crediting keeps every wallet balanced |
| Ledger.CreditTwice | django_backend/orders/signals.py:26-29 | two credits to a wallet are one credit of their sum |
| Ledger.WithdrawTwice | django_backend/payments/admin.py:32-35 | two withdrawals from a wallet are one withdrawal of their sum |
| Ledger.CreditAllAt | django_backend/orders/signals.py:26-29 | each seller's wallet is credited by exactly the sum of that seller's rows |
| Ledger.LedgerDb.constructor | django_backend/payments/models.py:8-56 | the payments tables start empty and valid |
| Signals.ItemEarnings | django_backend/orders/signals.py:14-23 | one Earning row per eligible item |
| Signals.ItemEarningsRows | django_backend/orders/signals.py:14-23 | exactly the items of a known shop get a row, carrying the item's seller amount and fee, credited to the shop owner and naming the order |
| Signals.HandleSpec | django_backend/orders/signals.py:8-29 | nothing changes unless the order is paid, not just created, and has no Earning yet; otherwise the item rows are appended |
| Signals.HandleIdempotent | django_backend/orders/signals.py:12 | running the hook a second time on the same order changes nothing |
| Signals.HandleKeepsBalanced | django_backend/orders/signals.py:26-29 | a run keeps every wallet balanced |
| Signals.DistributeStep | django_backend/orders/signals.py:14-29 | one loop step writes the next eligible item's Earning and credits its owner, staying on course for `ItemEarnings` and `CreditAll` |
| Signals.Distribute | django_backend/orders/signals.py:14-29 | the loop appends `ItemEarnings` and credits the wallets to `CreditAll` of them; payments and payouts are untouched |
| Signals.HandleOrderPayment | django_backend/orders/signals.py:7-29 | the hook leaves the wallets and Earning rows at `HandleSpec` of the old ones and keeps the ledger valid |
| PaymentViews.ItemOf | django_backend/payments/views.py:31-39 | a dictionary line becomes an item with its id and seller, defaulting the name to "Product {pid}", the price to 0 and the quantity to 1; a bare-quantity line raises |
| PaymentViews.SessionItemsShape | django_backend/payments/views.py:24-40 | the items are one per cart entry in cart order, and the read fails exactly when some line is a bare quantity |
| PaymentViews.GetCartItemsFromSession | django_backend/payments/views.py:24-40 | the loop returns exactly `SessionItems` of the cart |
| PaymentViews.UnitAmount | django_backend/payments/views.py:58 | the unit amount is the price in cents, rounded to within half a cent |
| PaymentViews.UnitAmountOfCents | django_backend/payments/views.py:58 | a whole-cent price is charged exactly |
| PaymentViews.PriceItems | django_backend/payments/views.py:54-67 | one Stripe line item per item with its rounded unit amount, and `amount_total` is the exact sum of price × quantity |
| PaymentViews.CreateCheckoutSession | django_backend/payments/views.py:42-91 | a non-POST, an empty cart or a cart that raises records nothing; otherwise one Payment with order "pending", status "created" and the exact amount is stored under the session id |
| PaymentViews.SplitOf | django_backend/payments/views.py:143-145 | gross, fee and seller amount are whole cents, the gross within half a cent of price × qty and the fee within half a cent of gross × rate |
| PaymentViews.SplitExact | django_backend/payments/views.py:143-145 | seller amount + fee is exactly the gross |
| PaymentViews.WebhookEarnings | django_backend/payments/views.py:139-154 | at most one Earning row per metadata item |
| PaymentViews.WebhookEarningsRows | django_backend/payments/views.py:138-154 | every item with a seller gives its row, with that seller, the order, the item id and the item's split, and every row is such an item's |
| PaymentViews.WebhookEarningsAppend | django_backend/payments/views.py:138-154 | rows are written in metadata order: two runs of items give their two runs of rows, one after the other |
| PaymentViews.WebhookEarningsCents | django_backend/payments/views.py:143-154 | every webhook row's amount and fee are whole cents |
| PaymentViews.CentsCreditAll | django_backend/payments/views.py:155-158 | the webhook's credits keep every existing wallet and create the missing ones |
| PaymentViews.CentsCreditAllBalanced | django_backend/payments/views.py:155-158 | on whole-cent wallets the re-quantized credits keep every wallet balanced and in whole cents |
| PaymentViews.WebhookOrder | django_backend/payments/views.py:126-134 | a payment still "pending" takes the minimal order's id when one is created; an order id already set is kept |
| PaymentViews.StripeWebhook | django_backend/payments/views.py:101-160 | a bad signature answers 400 and an unknown session 200, neither changing anything; a completed session marks its payment paid, appends one row per item with a seller, and credits those wallets with the re-quantized split |
| PaymentViews.CreditWebhookStep | django_backend/payments/views.py:138-158 | one loop step writes the next credited item's Earning and re-quantized credit, staying on course for `WebhookEarnings` and `CentsCreditAll` |
| PaymentViews.CreditWebhookItems | django_backend/payments/views.py:139-158 | the loop appends `WebhookEarnings` and leaves the wallets at `CentsCreditAll` of them |
| PaymentViews.CentsCreditAllExact | django_backend/payments/views.py:155-158 | on whole-cent wallets and amounts the re-quantized credits equal the exact credits |
| PaymentViews.WebhookReplayCreditsTwice | django_backend/payments/views.py:113-158 | with no replay guard, delivering the same event twice credits each seller twice the order's seller amounts |
| PaymentViews.NewestPayouts | django_backend/payments/views.py:165 | the listing is no longer than the table and starts with the newest request when it is the seller's |
| PaymentViews.SellerRequests | django_backend/payments/views.py:165 | the seller's requests in creation order are no more than the table |
| PaymentViews.SellerRequestsAppend | django_backend/payments/views.py:165 | filtering a concatenation concatenates the filtered parts |
| PaymentViews.NewestPayoutsReversed | django_backend/payments/views.py:165 | the listing is exactly the seller's requests in reverse creation order: same length, and entry `i` is the `i`-th newest |
| PaymentViews.NewestPayoutsRows | django_backend/payments/views.py:165 | the listing holds every request of the seller and no one else's |
| PaymentViews.SellerPayouts | django_backend/payments/views.py:162-166 | the seller's wallet is created if missing and shown with `NewestPayouts`, their requests in reverse creation order; nothing else changes |
| PaymentViews.CheckoutSuccess | django_backend/payments/views.py:93-96 | the session cart is emptied and the rest of the session is kept |
| PaymentViews.RequestPayout | django_backend/payments/views.py:168-180 | POST only; the wallet is created if missing; an amount Decimal rejects answers 400, a NaN raises at the comparison, an infinite, non-positive or over-balance amount answers 403, all creating nothing; otherwise exactly one 'pending' "manual" request is appended and the balance is untouched |
| PayoutAdmin.PaidPayouts | django_backend/payments/admin.py:27-30 | the payout table keeps its length; each selected pending or approved row becomes 'paid' at `now` |
| PayoutAdmin.WithdrawAll | django_backend/payments/admin.py:32-35 | the withdrawals keep every existing wallet and create the missing ones |
| PayoutAdmin.WithdrawAllAt | django_backend/payments/admin.py:32-35 | each seller's balance drops, and total withdrawn rises, by exactly the amounts of their paid payouts, with no check that the balance covers them |
| PayoutAdmin.PaidPayoutsStep | django_backend/payments/admin.py:27-30 | paying one more selected row changes only that row, which the earlier steps left as it was |
| PayoutAdmin.PayStep | django_backend/payments/admin.py:27-35 | one loop step pays the next selected row if it is payable and withdraws its amount from the seller, staying on course for `PaidPayouts` and `WithdrawAll` |
| PayoutAdmin.WithdrawAllBalanced | django_backend/payments/admin.py:32-35 | the withdrawals keep every wallet balanced |
| PayoutAdmin.MarkPaid | django_backend/payments/admin.py:25-35 | the loop leaves the payouts at `PaidPayouts` and the wallets at `WithdrawAll` of the old ones, keeping the ledger valid |
| PayoutAdmin.WithStatus | django_backend/payments/admin.py:38-44 | the payout table keeps its length |
| PayoutAdmin.SetPayoutStatus | django_backend/payments/admin.py:38-44 | every selected payout gets the status whatever it was, every other is unchanged, and wallets are untouched |
| PayoutAdmin.Approve | django_backend/payments/admin.py:38-39 | every selected payout becomes 'approved'; wallets are untouched |
| PayoutAdmin.Reject | django_backend/payments/admin.py:42-43 | every selected payout becomes 'rejected'; wallets are untouched |
| PayoutAdmin.ReapprovedPayoutPaysTwice | django_backend/payments/admin.py:27-39 | approving an already paid payout makes it payable again, and paying it again withdraws a second time and overdraws the wallet |
| Refunds.Approved | django_backend/refunds/models.py:67-73 | the request becomes approved with the admin, note and time recorded, and every other field of the request is kept |
| Refunds.Rejected | django_backend/refunds/models.py:84-90 | the request becomes rejected with the admin, note and time recorded, and every other field is kept |
| Refunds.NewRefund | django_backend/refunds/models.py:76-82 | the refund created on approval carries an "RFD" + 8 character number, the request's order, user and amount, status pending and no transaction yet |
| Refunds.RefundDesk.constructor | django_backend/refunds/models.py:93-112 | the request and refund tables start empty and valid |
| Refunds.RefundDesk.Approve | django_backend/refunds/models.py:67-82 | the request is approved, and a refund is created exactly when the request had none (one-to-one), keeping every refund attached to a processed request |
| Refunds.RefundDesk.Reject | django_backend/refunds/models.py:84-90 | the request is rejected and no refund is created |
| Refunds.RefundDesk.Complete | django_backend/refunds/models.py:144-153 | the refund becomes completed with its transaction id and time, and its request becomes completed |
| Refunds.PendingHasNoRefund | django_backend/refunds/models.py:67-82 | a request still pending has no refund row, so approving it always creates one |
| Refunds.StoreCredit.constructor | django_backend/refunds/models.py:156-159 | a new store credit has balance 0 and an empty log |
| Refunds.StoreCredit.AddCredit | django_backend/refunds/models.py:167-178 | the balance rises by the amount and a credit entry with the new balance is logged; the balance always equals the replayed log |
| Refunds.StoreCredit.DeductCredit | django_backend/refunds/models.py:180-194 | it succeeds exactly when the balance covers the amount; then the balance drops and a debit entry is logged, otherwise nothing changes; a non-negative balance stays non-negative |
| Refunds.AppendKeepsLog | django_backend/refunds/models.py:172-192 | logging an entry whose balance-after is the new balance keeps every logged balance equal to the replay up to it |
| Refunds.DebitsNeverExceedCredits | django_backend/refunds/models.py:180-194 | a log of non-negative amounts whose every debit was covered never replays to a negative balance |
| RefundViews.FindItem | django_backend/refunds/views.py:58-59 | an item is found exactly when the order has an item with that id, and it is that item |
| RefundViews.RefundAmount | django_backend/refunds/views.py:57-63 | the amount is the named item's subtotal, or the order total when no item is named |
| RefundViews.CreateRefundRequest | django_backend/refunds/views.py:32-82 | 404 unless the order is the user's; a request is created exactly for a delivered order with no open request, on a POST with reason and description and, when an item is named, an item of the order; it is pending for the computed amount; every refusal changes nothing |
| RefundViews.SecondRequestRefused | django_backend/refunds/views.py:43-45 | once a pending request is stored for an order, the order has an open request, so a second one is refused |
| RefundViews.CancelRefundRequest | django_backend/refunds/views.py:85-98 | a POST cancels the user's own request exactly when it is pending; anything else changes nothing |
| RefundAdmin.ApprovedAll | django_backend/refunds/admin.py:33-35 | approving a selection keeps the set of requests |
| RefundAdmin.RefundsAfterAt | django_backend/refunds/admin.py:33-35 | every pending selected request gets a refund for its own amount |
| RefundAdmin.RefundsAfterKeys | django_backend/refunds/admin.py:33-35 | refunds are only added, only for pending selected requests, and existing refunds of other requests are kept |
| RefundAdmin.ApprovedNone | django_backend/refunds/admin.py:33-35 | approving an empty selection changes no request |
| RefundAdmin.ApprovedAllStep | django_backend/refunds/admin.py:34-35 | adding one request to the selection approves exactly that request more, if it is pending |
| RefundAdmin.RefundsAfterStep | django_backend/refunds/admin.py:34-35 | adding one request to the selection adds exactly its refund, if it is pending |
| RefundAdmin.ApproveOne | django_backend/refunds/admin.py:34-35 | a pending request is approved and gets its refund; any other is skipped |
| RefundAdmin.ApproveStep | django_backend/refunds/admin.py:34-35 | one loop step extends the approved prefix of the selection by one request |
| RefundAdmin.ApproveRequests | django_backend/refunds/admin.py:33-37 | every pending selected request is approved with "Approved by admin" and gets a refund, nothing else changes, the tables stay valid, and the reported count is the whole selection |
| RefundAdmin.RejectedAll | django_backend/refunds/admin.py:39-41 | rejecting a selection keeps the set of requests |
| RefundAdmin.RejectedAllStep | django_backend/refunds/admin.py:40-41 | adding one request to the selection rejects exactly that request more, if it is pending |
| RefundAdmin.RejectStep | django_backend/refunds/admin.py:40-41 | one loop step extends the rejected prefix of the selection by one request, creating no refund |
| RefundAdmin.RejectRequests | django_backend/refunds/admin.py:39-43 | the requests become `RejectedAll` of the selection: every pending selected request is rejected with "Rejected by admin" and every other request is kept; no refund is created, and the reported count is the whole selection |
| Wishlists.ListedIffRow | django_backend/wishlist/models.py:20-27 | a product is on a user's list exactly when its (user, product) row exists |
| Wishlists.AddNewRow | django_backend/wishlist/views.py:29-32 | a new row for a product not yet on the list keeps rows unique and grows only that user's items, by that id |
| Wishlists.AddNewProduct | django_backend/wishlist/views.py:29-32 | inserting a row adds exactly its product to the user's products |
| Wishlists.AddItemCount | django_backend/wishlist/views.py:26-44 | adding puts the product on the list, keeps rows unique, leaves other users alone, and raises the count by one exactly when the product was not there |
| Wishlists.AddItemIdempotent | django_backend/wishlist/views.py:29-32 | adding the same product twice is adding it once |
| Wishlists.RemoveItemCount | django_backend/wishlist/views.py:53-65 | deleting one of the user's items lowers their count by one and leaves other users' items alone |
| Wishlists.ClearedItems | django_backend/wishlist/views.py:76 | clearing leaves the user no items and keeps every other user's rows, adding none |
| Wishlists.WishlistDb.constructor | django_backend/wishlist/models.py:6-27 | the tables start empty and valid |
| Wishlists.WishlistDb.Add | django_backend/wishlist/views.py:22-47 | 404 for a missing or inactive product, with nothing changed; otherwise the user's wishlist exists, the item is get-or-created, `created` says whether the product was new, and the count reported is the new one |
| Wishlists.WishlistDb.Remove | django_backend/wishlist/views.py:50-68 | 404 unless the item is the user's own; otherwise exactly that row is deleted and the count drops by one |
| Wishlists.WishlistDb.View | django_backend/wishlist/views.py:9-19 | the user's wishlist is created if missing and its items are shown; no row changes |
| Wishlists.WishlistDb.Clear | django_backend/wishlist/views.py:71-79 | a POST by a user with a wishlist deletes exactly their items; anything else changes nothing |
| Chat.OnePerBuyerShopKeep | django_backend/chat/models.py:21 | rewriting a conversation without changing its buyer and shop keeps one conversation per (buyer, shop) |
| Chat.LastMessageNewest | django_backend/chat/models.py:26-28 | there is a last message exactly when the conversation has messages, and it is one of them with no newer one |
| Chat.OtherUser | django_backend/chat/views.py:54 | the other user is a participant: the seller for the buyer, the buyer for anyone else |
| Chat.MarkRead | django_backend/chat/views.py:45-48 | exactly the conversation's unread messages from others become read at `now`; every other message is unchanged |
| Chat.MarkReadTail | django_backend/chat/views.py:45-48 | marking read works message by message |
| Chat.MarkReadClears | django_backend/chat/views.py:45-48 | after viewing, the viewer's unread count in that conversation is 0 and every other conversation's count is unchanged |
| Chat.TotalUnreadAfterView | django_backend/chat/views.py:153-161 | viewing a conversation lowers the user's total unread exactly by that conversation's unread count |
| Chat.ListedIdsExact | django_backend/chat/views.py:15-18 | the list holds exactly the active conversations where the user is buyer or seller, each once, in table order |
| Chat.FindConversation | django_backend/chat/views.py:117-121 | a found conversation has the requested buyer and shop |
| Chat.FindConversationMisses | django_backend/chat/views.py:117-121 | the search misses exactly when no conversation has that buyer and shop |
| ChatViews.StartShape | django_backend/chat/views.py:107-133 | a start redirects exactly for an active shop the user does not own whose existing conversation is still with its owner, to a conversation of that buyer, owner and shop, adding a row only when none existed and changing no other, and keeping one conversation per (buyer, shop) |
| ChatViews.StartTwice | django_backend/chat/views.py:117-131 | starting again finds the same conversation and changes nothing |
| ChatViews.MessageTextBlank | django_backend/chat/views.py:76-80 | the message is blank exactly when the posted field is missing or all white space |
| ChatViews.ChatDb.constructor | django_backend/chat/models.py:6-51 | the tables start empty and valid |
| ChatViews.ChatDb.ConversationList | django_backend/chat/views.py:11-27 | one row per listed conversation, in order, each with the user's unread count for it |
| ChatViews.ChatDb.ConversationDetail | django_backend/chat/views.py:30-61 | 404 for a missing or archived conversation, forbidden for a non-participant; otherwise the other side's messages are marked read and the other user is shown |
| ChatViews.ChatDb.SendMessage | django_backend/chat/views.py:64-104 | each refusal (not POST, missing, not a participant, blank without image) changes nothing; otherwise exactly one unread message with the stripped text is appended and the conversation's update time becomes `now` |
| ChatViews.ChatDb.StartConversation | django_backend/chat/views.py:107-133 | the tables become what `StartResult` says, keeping one conversation per (buyer, shop) |
| ChatViews.ChatDb.DeleteConversation | django_backend/chat/views.py:136-150 | a participant's POST archives the conversation; each refusal changes nothing |
| ChatViews.ChatDb.GetUnreadCount | django_backend/chat/views.py:153-161 | the count is the user's total unread over the conversations they take part in |
| PromotionViews.CodeOfEmpty | django_backend/promotions/views.py:63-66 | the looked-up code is empty exactly when the posted text is missing or all white space |
| PromotionViews.CouponCartTotalCrashes | django_backend/promotions/views.py:77-80 | the cart loop raises exactly when some cart line is a bare quantity without a price |
| PromotionViews.CouponCartTotalNonNegative | django_backend/promotions/views.py:75-80 | with non-negative prices and quantities, the cart total is not negative |
| PromotionViews.CartTotal | django_backend/promotions/views.py:74-80 | the loop computes the total of price times quantity over the cart, or raises where the total is undefined |
| PromotionViews.ApplyResultFailures | django_backend/promotions/views.py:62-104 | not POST, a blank code, an unknown code and a crashing cart loop each give their answer exactly under their guard |
| PromotionViews.ApplyResultChecked | django_backend/promotions/views.py:82-102 | a refusal is the failed `can_use` check on the found coupon and cart total; a success passed it, and the discount is `calculate_discount` of the total, at most the total, with the new total equal to the total minus the discount |
| PromotionViews.AppliedWithinTotal | django_backend/promotions/views.py:89-101 | with non-negative prices, quantities and coupon values, the discount is non-negative and the new total lies between 0 and the cart total |
| PromotionViews.ApplyCoupon | django_backend/promotions/views.py:59-104 | the answer is `ApplyResult`; only a success stores the applied coupon's code and discount in the session, and nothing else in the session changes |
| PromotionViews.RemoveCoupon | django_backend/promotions/views.py:107-113 | it succeeds exactly when a coupon was applied, and afterwards none is |
| PromotionViews.ActiveOfMembers | django_backend/promotions/views.py:36 | the event's own products shown are exactly its active ones, without duplicates |
| PromotionViews.CategoryOfMembers | django_backend/promotions/views.py:39-42 | the category products are exactly the active products of the event's categories that are not among its own, without duplicates |
| PromotionViews.EventProductsExact | django_backend/promotions/views.py:36-44 | the page lists exactly the active own products and the active category products, each once |
| PromotionViews.DealOf | django_backend/promotions/views.py:47-50 | each product shows its original price, and its savings are the event's percentage of it |
| PromotionViews.PriceDeals | django_backend/promotions/views.py:47-50 | the loop prices every listed product, in order |
| PromotionViews.EventDetail | django_backend/promotions/views.py:31-56 | 404 exactly when the event is missing or inactive; otherwise the priced deals of exactly the event's products |

## Left out

- The gateway (Stripe) calls: creating a checkout session and checking a webhook signature are foreign calls. The signature check is a boolean parameter, and the session id is an opaque string.
- Request plumbing: rendering, redirects, flash messages, JSON encoding and `login_required`. A view with more than one possible answer returns an outcome datatype.
- Clocks and uuids: `timezone.now()` is a `Time` parameter. `RefundAdmin.ApproveRequests` and `RefundAdmin.RejectRequests` take one `now` for the whole action, whereas `approve` and `reject` each read the clock per request (`refunds/models.py:72`, `:89`), so the model does not capture distinct timestamps within one action. `uuid4().hex` is a parameter assumed to be fresh, and only the prefix, cut and upper-casing of the numbers built from it are modelled.
- Concurrency: read-modify-write races on wallets, stock and `times_used`. The model is sequential.
- Database column rounding: a `DecimalField(decimal_places=2)` rounds a stored value. The model keeps exact values.
- PaymentViews.StripeWebhook: ensures the ledger invariant only when every old wallet holds whole cents, which the database column would guarantee.
- The webhook's minimal order creation: `Order` there may be undefined, so creating it is a step outside the model.
- Unicode: `strip()` and `upper()` are modelled on ASCII white space (including the separators 0x1C to 0x1F) and ASCII letters only; non-ASCII white space such as U+0085 and U+00A0, and non-ASCII letters, are not modelled.
- Parse errors: `int()` and `Decimal()` of a malformed request field raise. Numeric fields arrive already parsed, and quantities or amounts that fail to parse are not modelled. This includes the `product_id` that `start_conversation` reads from the query string.
- Session keys: the JSON session stores product ids as strings. The model uses one key type for both carts.
- Admin edits outside the named actions, `refund_method`, transaction notes and uploaded images. An image is a boolean `hasImage`.
- Ordering: conversations by `-updated_at`, messages and wishlist items by newest first, and refunds by `-created_at`. Lists keep table order. `last_message` is modelled as the newest message.
- `event_list`, `coupons_page`, `refund_request_list`, `refund_request_detail` and `checkout_cancel`: these are queryset filters and renders with no logic of their own.
- `store_credit_balance` (`refunds/views.py:101-111`) creates the user's StoreCredit row when it is missing; the model holds store credit as one object, not a table keyed by user, so that insert is not modelled.
- The chat context processor: it refers to an undefined name and always falls back to 0.
- The seller, dashboard and shop views, the forms, URLs, settings, setup scripts and the React front end.
