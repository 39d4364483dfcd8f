# Shop core: balance ledger, cart and orders

This project models the business core of a Django e-commerce back end and proves
properties of it in Dafny:

- the **balance ledger** of `users/models.py`. Each user has a profile with a
  nullable balance. A profile created for a staff account has none, but an account
  made staff after its profile was created, as admin registration does, keeps
  balance 0.00 (`Shop.Store.RegisterAdmin`). Deposit, withdraw and refund
  each check their guards. On success, each appends exactly one signed transaction.
- the **cart** of `cart/models.py` and `cart/views.py`. A cart stores its total.
  Every save or delete of a single cart line recomputes that total from the lines;
  the bulk delete that empties the cart after payment does not, and the total is
  reset to 0 by hand.
  `add_to_cart` upserts the (cart, product) line behind a stock check.
  `remove_from_cart` and `view_cart` are also modelled.
- the **order workflow** of `orders/views.py` and `orders/models.py`:
  - `create_order` turns the cart into an order inside a `transaction.atomic()` block.
    The block re-checks stock, freezes prices, takes stock, withdraws the total and
    empties the cart.
  - `cancel_order` returns the stock and refunds the total.
  - `order_list` and `order_detail` hide cancelled orders and repair a stored total of 0.

Money is held as integer cents. The database is the class `Shop.Store`. It holds
the product table, one `Carts.Cart` and one `Ledger.UserProfile` object per user,
the order table, and the counters that hand out keys. Its invariant `Store.Valid`
says four things:

- every cart's stored total is the sum of its lines at current prices;
- within a cart, no two lines share a key or a product;
- every cart and profile is filed under its owner;
- every order is filed under its own key and refers to existing products.

Every view preserves this invariant.

The atomic blocks are modelled as the code runs them. A `raise` undoes the block:
a refused withdrawal in `create_order`, or a missing profile in `cancel_order`.
An ordinary `return` from inside the block commits what was done before it.

Two consequences of this are proved as lemmas rather than assumed away:

- A cart line short of stock returns from inside the block. That commits a
  PENDING order with total 0 that holds the items made so far, and their stock
  stays taken. `OrderViews.PlaceShortCommits` states this. The cart is not
  emptied and nothing is withdrawn.
- Cancelling such an order recalculates its total and refunds the full value of
  its items. The owner is credited money that was never withdrawn.
  `OrderViews.CancelRefundsUnpaid` states this.

Other behaviour of the code that the model keeps:

- The serializer's `create` sets a new order's total to 0 (`orders/serializers.py:39`).
  The real total is stored only later, by `recalculate_total` (`orders/views.py:154`).
- Only the raise at `orders/views.py:158` undoes the create_order block. The returns
  at `orders/views.py:137` and `orders/views.py:236` commit what the block has done.
- When a refund fails in cancel_order, the return at `orders/views.py:236` commits:
  the stock put back at `orders/views.py:221-224` stays back, and the order keeps its status.
- `add_to_cart` creates a line of quantity 0 before its stock check
  (`cart/views.py:58-62`). A request refused for stock (`cart/views.py:64-79`)
  leaves that line in the cart. `CartViews.Raise` returns the staged lines
  unchanged on refusal.
- After payment, create_order empties the cart with the bulk `cart_items.delete()`
  (`orders/views.py:161`), which does not run the per-line `CartItem.delete` override.
  The cart's total is set to 0 by hand (`orders/views.py:163-164`). `OrderViews.Settle`
  clears the lines and the total in the same two steps.
- No view moves an order forward through PROCESSING, SHIPPED or DELIVERED. The only
  status any modelled code sets is CANCELLED (`orders/views.py:242`).

## Model

| member | source | states |
|---|---|---|
| Common.NatToString | orders/views.py:232 | The rendering of an order key in a refund description is a non-empty run of decimal digits |
| Common.NatToStringRoundTrip | orders/views.py:232 | Reading the digits back gives the key itself, so the rendering loses nothing |
| Catalog.WithStock | orders/views.py:150-151 | Saving one product's new stock changes that counter only: keys, every price and every other product stay as they were |
| Ledger.UserProfile.constructor | users/models.py:126-137 | A new profile has no transactions and balance 0.00, or no balance for a staff account |
| Ledger.UserProfile.Save | users/models.py:18-22 | Saving a staff account's profile clears its balance; any other profile keeps its balance |
| Ledger.UserProfile.Deposit | users/models.py:24-49 | Succeeds exactly for a non-staff user and a positive amount; then the balance, counting a null one as 0, rises by the amount and one Deposit entry "Funds deposited" is appended; otherwise nothing changes; the balance change equals the sum of the appended entries |
| Ledger.UserProfile.Withdraw | users/models.py:51-76 | Succeeds exactly for a non-staff user, a positive amount and a non-null balance of at least the amount; then the balance drops by the amount and stays non-negative, and one entry of minus the amount, Withdrawal, "Order payment" is appended; otherwise nothing changes |
| Ledger.UserProfile.Refund | users/models.py:78-102 | Succeeds exactly for a non-staff user and a positive amount; then the balance, counting a null one as 0, rises by the amount and one Refund entry with the given description is appended; otherwise nothing changes |
| Ledger.UserProfile.AppendOne | users/models.py:95-100 | Creating a Transaction row appends exactly that entry to the user's history and leaves the balance alone |
| Ledger.SumAmountsAppend | users/models.py:104-118 | The sum of a history is the sum of its parts |
| Ledger.LedgerTelescopes | users/models.py:24-102 | Over any run of ledger operations, the change in balance equals the sum of the entries appended |
| Carts.LinesTotalAppend | cart/models.py:13-24 | The cart total of two runs of lines is the sum of their totals |
| Carts.LinesTotalRemove | cart/models.py:41-47 | Deleting one line takes exactly that line's cost off the total |
| Carts.LinesTotalReplace | cart/models.py:34-39 | Saving a changed line changes the total by the difference between the new and the old line's cost |
| Carts.LinesTotalRaise | cart/views.py:82-83 | Raising a line's quantity by n raises the total by n units of its product's price |
| Carts.LinesTotalPermutation | cart/models.py:18-20 | update_total does not depend on the order in which `items.all()` yields the lines |
| Carts.IndexOfId | cart/views.py:126 | The lookup by key finds the first line with that key, or reports that no line has it |
| Carts.IndexOfProduct | cart/views.py:58-62 | The (cart, product) lookup finds the first line of that product, or reports that no line has it |
| Carts.DistinctAppend | cart/views.py:58-62 | A line created for a product the cart lacks, under the next key, keeps keys and products distinct and below the new counter |
| Carts.DistinctRequantify | cart/views.py:82-83 | Changing a line's quantity keeps keys and products distinct, and its key still finds it |
| Carts.DistinctRemove | cart/views.py:130 | Deleting a line keeps keys and products distinct |
| Carts.Upsert | cart/models.py:38 | Saving a row keeps the number of rows when its key is present and appends it otherwise; the saved row is among the rows, and every row with another key keeps its place and content |
| Carts.Cart.constructor | cart/views.py:39 | A created cart belongs to the user and has no lines and total 0.00 |
| Carts.Cart.UpdateTotal | cart/models.py:13-24 | The loop stores and returns the sum of price times quantity over the lines, and leaves the lines alone |
| Carts.Cart.SaveItem | cart/models.py:34-39 | After saving a line, the lines are the upsert of that line and the stored total is their sum |
| Carts.Cart.DeleteItem | cart/models.py:41-47 | After deleting a line, it is gone with the rest in order, and the stored total is the old total less that line's cost |
| CartViews.Staged | cart/views.py:58-62 | get_or_create yields the index of a line of that product; the earlier lines are kept in front and at most one line is added |
| CartViews.Raise | cart/views.py:64-83 | Succeeds only when the new quantity fits the stock, and returns the line of that product; a refusal is out of stock or names an availability between 1 and the quantity asked less one; the exact values are stated by AddOutcomeValues |
| CartViews.AddOutcome | cart/views.py:58-83 | A successful add returns a line of the requested product whose quantity fits the stock; the exact values are stated by AddOutcomeValues |
| CartViews.AddOutcomeValues | cart/views.py:58-83 | With held the quantity already in the cart (0 for a new line): success exactly when held plus the amount fits the stock, and the line then holds held plus the amount under its old key, or under the fresh key at the end; "out of stock" exactly when stock minus held is 0 or less, otherwise an offer of stock minus held units; a refusal leaves the lines as they were, plus a quantity-0 line for a product the cart lacked |
| CartViews.StagedKeepsCart | cart/views.py:58-62 | Staging keeps the cart's lines priced, distinct and below the next key |
| CartViews.StagedTotal | cart/views.py:58-62 | Staging leaves the cart total unchanged (a new line costs nothing) |
| CartViews.RaiseKeepsCart | cart/views.py:64-83 | The stock step keeps the lines priced and distinct, and the returned line is in the cart at its index |
| CartViews.RaiseTotal | cart/views.py:64-83 | The total rises by price times quantity when the stock step succeeds, and is unchanged when it refuses |
| CartViews.AddOutcomeKeepsCart | cart/views.py:58-83 | A well-formed cart stays well formed through add_to_cart whatever the outcome, and a returned line is in the cart |
| CartViews.AddOutcomeTotal | cart/views.py:58-83 | The cart total rises by the price of the units added exactly when the add succeeds |
| CartViews.AddToCart | cart/views.py:33-85 | The cart is created on every call; an absent quantity is 1; missing id, unknown product and non-positive quantity are refused in that order; otherwise the result and lines are AddOutcome, and the stored total rises by price times quantity on success only; the store invariant holds |
| CartViews.AddQuantity | cart/views.py:58-85 | After the checks, the result and lines are AddOutcome of the old lines, the next key and the stock |
| CartViews.SetLineQuantity | cart/views.py:82-83 | Saving the new quantity replaces just that line and keeps the invariant |
| CartViews.GetOrCreateCart | cart/views.py:39 | The user then has a cart: the old one, or a fresh empty one filed under the user |
| CartViews.GetOrCreateLine | cart/views.py:58-62 | The lines and index are Staged of the old lines under the next key; the stored total is unchanged; the invariant holds |
| CartViews.RemoveFromCart | cart/views.py:119-131 | Succeeds exactly when the user's cart has a line with that key; then exactly that line is gone and the total drops by its cost; otherwise nothing changes |
| CartViews.ViewCart | cart/views.py:95-106 | A user without a cart is told the cart is empty; otherwise the view shows the lines and their total at current prices |
| Shop.Store.constructor | products/models.py:14-22 | An empty database over a product table satisfies the invariant |
| Shop.Store.UserSaved | users/models.py:126-137 | After a user is saved the user has a profile that reads the user as saved; an existing one keeps its balance and history; a new one has no transactions and balance 0.00 or None for staff; the invariant holds |
| Shop.Store.RegisterAdmin | users/serializers.py:24-29 | A user created as a customer and then made staff ends with one fresh profile that sees the staff flag and still holds balance 0.00 with no transactions; every other profile, the other tables and both key counters are as they were; the invariant holds |
| OrderModels.ProtectKeepsReferences | orders/models.py:38 | Deleting a product keeps every order item's reference valid exactly when no order item refers to it, the only case PROTECT allows |
| OrderViews.Patched | orders/views.py:34-36 | A stored total of 0 is replaced by the sum of the items; any other total, and every other field, is kept |
| OrderViews.RecalculateTotal | orders/views.py:154 | The order's total becomes the sum of its items; nothing else in the order table changes |
| OrderViews.FillOrder | orders/views.py:134-151 | The loop yields exactly the items, product table and short line of FillLines on the old table |
| OrderViews.RestockOrder | orders/views.py:221-224 | The restitution loop leaves the product table that Restock describes |
| OrderViews.Place | orders/views.py:129-169 | A paid placement and only that returns an order; the order has the new key, the owner, status PENDING, and a positive total within the balance |
| OrderViews.PlacePaid | orders/views.py:134-164 | A paid order holds one item per cart line with its product, quantity and current price; its total is the cart total; each product's stock plus the units ordered equals the old stock |
| OrderViews.PlaceRolledBack | orders/views.py:153-158 | The withdrawal is refused exactly when no line was short and the cart total is not positive or exceeds the balance; then both tables are as they were |
| OrderViews.PlaceShortCommits | orders/views.py:136-139 | A short line commits an unpaid order of total 0 holding the items of the lines before it; its product's quantity exceeds the stock left; restocking its items gives back the old table |
| OrderViews.PlaceKeepsTables | orders/views.py:129-169 | Prices and keys of the product table do not move; the order table changes under the new key only; every order stays filed under its key, below the next key, referring to existing products |
| OrderViews.PlaceAfterChecks | orders/views.py:119-158 | Once the balance covers the cart, a paid order costs the cart total, and the withdrawal is refused only for a cart total that is not positive |
| OrderViews.Settle | orders/views.py:153-164 | Payment succeeds exactly when the recalculated total is positive and within the balance; then the order keeps that total, the balance drops by it with one "Order payment" entry, and the cart is emptied; otherwise the saved tables come back and cart and balance are untouched |
| OrderViews.PlaceOrder | orders/views.py:129-169 | The block's response and tables are Place on the old cart, tables and balance; a paid order empties the cart and withdraws its total with one entry; otherwise cart, balance and history are untouched |
| OrderViews.OrderFromCart | orders/views.py:119-169 | For a cart whose stored total is its sum and a balance that covers it, a paid order's total is the cart's stored total, withdrawn from the balance with one "Order payment" entry of minus that total, and the cart is emptied; an unpaid one leaves cart, balance and history as they were; a refused withdrawal means a cart total of 0 or less |
| OrderViews.CheckOut | orders/views.py:129-169 | The same as OrderFromCart, and the store invariant survives the block |
| OrderViews.Refusal | orders/views.py:96-128 | Every refusal before the block is one of staff, empty cart, insufficient balance or invalid shipping |
| OrderViews.CreateOrder | orders/views.py:89-171 | A refused request changes nothing; an admitted one follows Place on the user's cart and balance, with the cart and profile effects of PlaceOrder: on payment the cart is emptied, the balance drops by the order's total and one "Order payment" entry of minus that total is appended; otherwise cart, balance and history are untouched; the profile still reads the same user; the invariant holds |
| OrderViews.CancelRefusal | orders/views.py:199-217 | Every refusal before the block is one of staff, not found, already cancelled or not cancellable |
| OrderViews.RefundNoteNamesOrder | orders/views.py:232 | Two refund descriptions are equal exactly when they name the same order |
| OrderViews.Cancel | orders/views.py:219-243 | The order keeps key, owner and items; the result is a refund exactly when there is a profile and the repaired total is positive; a refunded order is CANCELLED and the refund is its total; a failed one keeps its status |
| OrderViews.CancelRestocks | orders/views.py:221-224 | Prices do not move, and unless the block is undone each product's stock rises by exactly the units the order holds of it |
| OrderViews.CancelUndoesPlace | orders/views.py:219-243 | Cancelling a paid order refunds exactly its total, gives back the product table from before the order, and marks it CANCELLED |
| OrderViews.CancelRefundsUnpaid | orders/views.py:227-239 | An order committed by a short line has total 0, yet cancelling it refunds the value of its items when that is positive, and gives back the old product table |
| OrderViews.CancelBlock | orders/views.py:219-243 | The block's response, product table and order are Cancel with a profile; a refund raises the balance by the amount and appends one Refund entry naming the order; a refusal leaves the profile alone |
| OrderViews.CancelOrder | orders/views.py:192-248 | A refused request changes nothing; an admitted one follows Cancel, with the profile effects of CancelBlock; the profile still reads the same user; the invariant holds |
| OrderViews.OwnVisible | orders/views.py:31 | The listed keys are keys of the order table below the next key |
| OrderViews.OwnVisibleExactly | orders/views.py:31 | A key is listed exactly when it is one of the user's orders that is not cancelled; the keys run newest first, each once |
| OrderViews.PatchEach | orders/views.py:34-36 | Each listed order appears repaired by Patched; exactly the listed ones are stored repaired, and the keys of the table are kept |
| OrderViews.OrderList | orders/views.py:26-39 | The response is the user's non-cancelled orders, newest first, each with a repaired total; exactly those are stored repaired; the invariant holds |
| OrderViews.Detail | orders/views.py:56-74 | An answer is the stored order under that key, repaired by Patched |
| OrderViews.DetailAgreesWithList | orders/views.py:61-64 | order_detail answers with an order exactly when order_list lists it |
| OrderViews.OrderDetail | orders/views.py:56-74 | The response is Detail on the old table; only an answered order is stored repaired; the invariant holds |
| Checkout.FillLines | orders/views.py:134-151 | The loop never changes a price or a key, and a short line names a product of the table |
| Checkout.FillFollowsLines | orders/views.py:134-139 | The loop stops at the first line whose quantity exceeds the stock then left, and makes one item for every line before it |
| Checkout.FillItems | orders/views.py:141-147 | Item i repeats line i's product and quantity at the product's price |
| Checkout.FillStock | orders/views.py:149-151 | Each product's stock plus the units taken of it equals its old stock, so stock never goes negative |
| Checkout.FillAfterShort | orders/views.py:136-139 | Once a line has failed, the lines after it change nothing |
| Checkout.FillTotal | orders/views.py:153-154 | The recalculated total is the cart total of the lines turned into items, and the whole cart's total when no line failed |
| Checkout.Restock | orders/views.py:221-224 | Restitution changes stock only, never a price or a key |
| Checkout.RestockStock | orders/views.py:221-224 | Each product's stock rises by exactly the units of the items that refer to it |
| Checkout.RestockUndoesFill | orders/views.py:221-224 | Restocking the items of a run of the loop, even one cut short, gives back the product table it started from |

## Left out

- Authentication, the 401 responses and permission classes: the model starts from an authenticated `User` value.
- HTTP routing, response bodies and status codes, swagger annotations, `admin.py` and `urls.py`: each response is a `Result` value whose error constructor names the message.
- Serializers: `OrderCreateSerializer` validation becomes an `Option<Shipping>` parameter, where `None` means the shipping data is invalid. The field checks themselves are left out. The output of `CartSerializer` and `OrderSerializer` is the modelled value.
- OrderViews.RecalculateTotal: `Order.recalculate_total` is defined in no file of the repository. The model assumes it stores the sum of price times quantity over the order's items and saves the order.
- Decimal arithmetic: money is integer cents. The `max_digits=10` bound and its overflow errors are not modelled.
- Request fields as JSON strings: a numeric string `product_id` such as "5" is converted by the lookup and behaves as the number. A non-numeric string `product_id`, or any string `quantity`, raises in Python. The model takes an optional integer `product_id` and an integer `quantity` that defaults to 1 when absent (`cart/views.py:43`).
- Timestamps: `created_at`, `updated_at` and `Transaction.timestamp` are dropped. Newest-first ordering of orders follows the key order, since keys are handed out in creation order. A profile's transactions are kept oldest first.
- Row order of cart lines: `CartItem.objects.filter(cart=cart)` (`orders/views.py:106`) has no `order_by`, so the database chooses the order in which create_order visits the lines. The model fixes insertion order. Which line is reported short, and which items a short return commits, depend on that choice. A paid order's total does not, by `Carts.LinesTotalPermutation`.
- Concurrency and transaction isolation: the model runs one request at a time and does no row locking.
- Product management (`products/views.py`): its views list categories and products and add a product; `update_product` and `delete_product` are routed in `products/urls.py` but defined nowhere. No view in the repository edits a price or deletes a product, so prices never change inside the model. Only stock moves.
- Deleting users, carts and orders (CASCADE) is left out. The PROTECT rule on `OrderItem.product` is stated as a lemma only.
- The key counter for orders is not rolled back when a raise undoes the create_order block. Database sequences behave the same way.
- OrderViews.CancelOrder: when the user has no profile, the block restocks, then raises on `user.profile` and is undone. The model returns before the restock with the same end state. It does not model the failed request's 500 response.
- OrderViews.CreateOrder: the raise at `orders/views.py:158` surfaces as a server error. The model reports it as `WithdrawFailed`.
- `UserProfile.deposit` has no view in the modelled files. It is modelled as a profile method only.
