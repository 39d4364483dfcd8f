/**
 * The business logic of orders/views.py: create_order, cancel_order, order_list
 * and order_detail over the in-memory store. Each `with transaction.atomic()`
 * block is a snapshot of the tables it writes, put back only when the block
 * raises; an early `return` inside the block commits what was done before it.
 *
 * Order.recalculate_total is called by these views but defined nowhere in the
 * repository. It is modelled by RecalculateTotal under the stated assumption that
 * it stores the sum of price * quantity over the order's items and saves the order
 * (the comment at orders/views.py:153 says so, and the `refresh_from_db` at
 * orders/views.py:167 only makes sense if the new total was saved).
 */
module OrderViews {
  import opened Common
  import opened Catalog
  import opened Ledger
  import opened Carts
  import opened OrderModels
  import opened Checkout
  import opened Shop

  /** What an order's total is after recalculate_total: an order recorded as 0 gets the sum of its items. */
  function Patched(o: Order): (p: Order)
    ensures p.id == o.id && p.owner == o.owner && p.status == o.status && p.items == o.items
    ensures p.totalAmount == (if o.totalAmount == 0 then ItemsTotal(o.items) else o.totalAmount)
  {
    if o.totalAmount == 0 then o.(totalAmount := ItemsTotal(o.items)) else o
  }

  /** ASSUMED behaviour of Order.recalculate_total, which no file of the repository defines. */
  method RecalculateTotal(s: Store, id: OrderId)
    requires id in s.orders
    modifies s`orders
    ensures s.orders == old(s.orders)[id := old(s.orders[id]).(totalAmount := ItemsTotal(old(s.orders[id].items)))]
  {
    var o := s.orders[id];
    s.orders := s.orders[id := o.(totalAmount := ItemsTotal(o.items))];
  }

  /**
   * The per-line loop of create_order (orders/views.py:134-151) over the cart lines:
   * re-check the stock, create the item at the current price, decrement the stock.
   * A line short of stock ends the loop with its product, and what was done before
   * it stays done. Returns the items created, which the caller files under their order.
   */
  method FillOrder(s: Store, lines: seq<CartItem>) returns (items: seq<OrderItem>, short: Option<ProductId>)
    requires PricedIn(lines, Prices(s.products))
    modifies s`products
    ensures var f := FillLines(lines, old(s.products));
      items == f.items && s.products == f.inventory && short == f.shortOf
  {
    ghost var inv0 := s.products;
    items := [];
    var i := 0;
    short := None;
    while i < |lines|
      invariant 0 <= i <= |lines|
      invariant PricedIn(lines[..i], Prices(inv0))
      invariant FillLines(lines[..i], inv0) == Fill(items, s.products, None)
    {
      var line := lines[i];
      ghost var done := Fill(items, s.products, None);
      assert lines[..i + 1][..i] == lines[..i];
      assert FillLines(lines[..i + 1], inv0) == FillStep(done, line);
      var product := s.products[line.product];
      if line.quantity > product.stock {
        FillAfterShort(lines, i + 1, inv0);
        short := Some(line.product);
        break;
      }
      FillStepTakes(done, line);
      items := items + [OrderItem(line.product, line.quantity, product.price)];
      s.products := WithStock(s.products, line.product, product.stock - line.quantity);
      i := i + 1;
    }
    if short.None? {
      assert lines[..i] == lines;
    }
  }

  /** The restitution loop of cancel_order (orders/views.py:221-224): each item's units go back. */
  method RestockOrder(s: Store, items: seq<OrderItem>)
    requires ItemsIn(items, s.products)
    modifies s`products
    ensures s.products == Restock(items, old(s.products))
  {
    ghost var inv0 := s.products;
    var i := 0;
    while i < |items|
      invariant 0 <= i <= |items|
      invariant ItemsIn(items[..i], inv0)
      invariant s.products == Restock(items[..i], inv0)
    {
      assert items[..i + 1][..i] == items[..i];
      var item := items[i];
      s.products := WithStock(s.products, item.product, s.products[item.product].stock + item.quantity);
      i := i + 1;
    }
    assert items[..i] == items;
  }

  datatype CreateError =
    | StaffCannotOrder                                // 400 "Admin users cannot place orders."
    | EmptyCart                                       // 400 "Your cart is empty. ..."
    | InsufficientBalance                             // 400 "Insufficient balance. ..."
    | InvalidShipping                                 // 400 with the serializer's errors
    | NotEnoughStock(product: ProductId, available: nat) // 400 "Not enough stock for ... Available: n"
    | WithdrawFailed                                  // the raise at orders/views.py:158

  /** The tables the atomic block of create_order leaves behind, and its response. */
  datatype Placement = Placement(result: Result<Order, CreateError>, products: Inventory,
                                 orders: map<OrderId, Order>, paid: bool)

  /**
   * The atomic block of create_order, run on the cart's lines from the given tables,
   * for a new order under key `id`:
   * - a line short of stock returns early, which commits the order (total 0, as the
   *   serializer created it) with the items made so far, and the stock taken for them;
   * - otherwise the total is recalculated, and a withdrawal from `balance` that is
   *   refused (a total that is not positive, or more than the balance) raises, which
   *   restores both tables;
   * - otherwise the order is paid for and kept with its recalculated total.
   */
  function Place(lines: seq<CartItem>, inv: Inventory, orders: map<OrderId, Order>, id: OrderId,
                 owner: UserId, shipping: Shipping, balance: int): (pl: Placement)
    requires PricedIn(lines, Prices(inv))
    ensures pl.paid <==> pl.result.Ok?
    ensures pl.result.Ok? ==> pl.result.value.id == id && pl.result.value.owner == owner
                              && pl.result.value.status == DefaultStatus && pl.result.value.totalAmount > 0
                              && pl.result.value.totalAmount <= balance
  {
    var f := FillLines(lines, inv);
    var created := Order(id, owner, shipping, DefaultStatus, 0, f.items);
    if f.shortOf.Some? then
      Placement(Err(NotEnoughStock(f.shortOf.value, f.inventory[f.shortOf.value].stock)), f.inventory,
                orders[id := created], false)
    else if !(0 < ItemsTotal(f.items) <= balance) then
      Placement(Err(WithdrawFailed), inv, orders, false)
    else
      var o := created.(totalAmount := ItemsTotal(f.items));
      Placement(Ok(o), f.inventory, orders[id := o], true)
  }

  /**
   * A paid order holds one item per cart line, with the line's product and quantity
   * and the product's price at the time, and its total is the cart's total; each
   * product's stock has dropped by exactly the units ordered.
   */
  lemma PlacePaid(lines: seq<CartItem>, inv: Inventory, orders: map<OrderId, Order>, id: OrderId,
                  owner: UserId, shipping: Shipping, balance: int)
    requires PricedIn(lines, Prices(inv))
    ensures var pl := Place(lines, inv, orders, id, owner, shipping, balance);
      pl.result.Ok? ==>
        && pl.result.value.totalAmount == LinesTotal(lines, Prices(inv))
        && |pl.result.value.items| == |lines|
        && (forall i :: 0 <= i < |lines| ==>
              pl.result.value.items[i] == OrderItem(lines[i].product, lines[i].quantity, inv[lines[i].product].price))
        && (forall p :: p in inv ==> pl.products[p].stock + QuantityOf(pl.result.value.items, p) == inv[p].stock)
  {
    FillFollowsLines(lines, inv);
    FillItems(lines, inv);
    FillTotal(lines, inv);
    var f := FillLines(lines, inv);
    forall p | p in inv
      ensures f.inventory[p].stock + QuantityOf(f.items, p) == inv[p].stock
    {
      FillStock(lines, inv, p);
    }
  }

  /**
   * A refused withdrawal undoes the whole block: the tables are as they were, and no
   * order exists under the new key. With a balance that covers the cart, which
   * create_order checks first, the only refusal left is a cart total that is not
   * positive.
   */
  lemma PlaceRolledBack(lines: seq<CartItem>, inv: Inventory, orders: map<OrderId, Order>, id: OrderId,
                        owner: UserId, shipping: Shipping, balance: int)
    requires PricedIn(lines, Prices(inv))
    ensures var pl := Place(lines, inv, orders, id, owner, shipping, balance);
      pl.result == Err(WithdrawFailed) <==>
        FillLines(lines, inv).shortOf.None? && !(0 < LinesTotal(lines, Prices(inv)) <= balance)
    ensures var pl := Place(lines, inv, orders, id, owner, shipping, balance);
      LinesTotal(lines, Prices(inv)) <= balance ==>
        (pl.result == Err(WithdrawFailed) <==> FillLines(lines, inv).shortOf.None? && LinesTotal(lines, Prices(inv)) <= 0)
    ensures var pl := Place(lines, inv, orders, id, owner, shipping, balance);
      pl.result == Err(WithdrawFailed) ==> pl.products == inv && pl.orders == orders
  {
    FillTotal(lines, inv);
  }

  /**
   * A line short of stock commits an unpaid order: its total is 0, its items are
   * those of the lines before the short one, and their units stay taken from stock.
   */
  lemma PlaceShortCommits(lines: seq<CartItem>, inv: Inventory, orders: map<OrderId, Order>, id: OrderId,
                          owner: UserId, shipping: Shipping, balance: int)
    requires PricedIn(lines, Prices(inv))
    ensures var pl := Place(lines, inv, orders, id, owner, shipping, balance);
      pl.result.Err? && pl.result.error.NotEnoughStock? ==>
        var k := |pl.orders[id].items|;
        && id in pl.orders && pl.orders[id].totalAmount == 0 && !pl.paid
        && k < |lines| && pl.result.error.product == lines[k].product
        && lines[k].quantity > pl.result.error.available
        && ItemsTotal(pl.orders[id].items) == LinesTotal(lines[..k], Prices(inv))
        && ItemsIn(pl.orders[id].items, pl.products)
        && Restock(pl.orders[id].items, pl.products) == inv
  {
    FillFollowsLines(lines, inv);
    FillTotal(lines, inv);
    RestockUndoesFill(lines, inv);
  }

  /**
   * The block changes the product table only in its stock counters, and the order
   * table only under the new key, where it files an order that refers to existing
   * products: every order stays filed under its own key, below the next key, and
   * refers to existing products.
   */
  lemma PlaceKeepsTables(lines: seq<CartItem>, inv: Inventory, orders: map<OrderId, Order>, id: OrderId,
                         owner: UserId, shipping: Shipping, balance: int)
    requires PricedIn(lines, Prices(inv))
    requires forall k :: k in orders ==> orders[k].id == k && k < id && ItemsIn(orders[k].items, inv)
    ensures var pl := Place(lines, inv, orders, id, owner, shipping, balance);
      && SamePrices(pl.products, inv)
      && (forall k :: k in pl.orders && k != id ==> k in orders && pl.orders[k] == orders[k])
      && (forall k :: k in pl.orders ==> pl.orders[k].id == k && k < id + 1 && ItemsIn(pl.orders[k].items, pl.products))
  {
    RestockUndoesFill(lines, inv);
    var f := FillLines(lines, inv);
    var pl := Place(lines, inv, orders, id, owner, shipping, balance);
    assert id in pl.orders ==> pl.orders[id].items == f.items && pl.products == f.inventory;
    forall k | k in pl.orders && k != id
      ensures ItemsIn(pl.orders[k].items, pl.products)
    {
      assert ItemsIn(orders[k].items, inv);
    }
  }

  /**
   * Once create_order has checked that the balance covers the cart's total, a paid
   * order costs exactly that total, and the withdrawal is refused only for a total
   * that is not positive.
   */
  lemma PlaceAfterChecks(lines: seq<CartItem>, inv: Inventory, orders: map<OrderId, Order>, id: OrderId,
                         owner: UserId, shipping: Shipping, balance: int)
    requires PricedIn(lines, Prices(inv)) && LinesTotal(lines, Prices(inv)) <= balance
    ensures var pl := Place(lines, inv, orders, id, owner, shipping, balance);
      && (pl.paid ==> pl.result.value.totalAmount == LinesTotal(lines, Prices(inv)))
      && (pl.result == Err(WithdrawFailed) ==> LinesTotal(lines, Prices(inv)) <= 0)
  {
    FillTotal(lines, inv);
  }

  /**
   * The end of the atomic block of create_order (orders/views.py:153-164) for order
   * `id`: recalculate the total and withdraw it. A refused withdrawal raises, which
   * puts back the tables saved as the block began; otherwise the order keeps its
   * new total and the cart is emptied.
   */
  method Settle(s: Store, id: OrderId, cart: Cart, profile: UserProfile,
                savedProducts: Inventory, savedOrders: map<OrderId, Order>) returns (paid: bool, total: int)
    requires id in s.orders && !profile.user.isStaff && profile.balance.Some?
    modifies s`products, s`orders, cart, profile`balance, profile`transactions
    ensures total == ItemsTotal(old(s.orders[id].items))
    ensures && (paid <==> 0 < total <= old(profile.balance.value))
      && (paid ==> && s.products == old(s.products)
                   && s.orders == old(s.orders)[id := old(s.orders[id]).(totalAmount := total)]
                   && profile.balance == Some(old(profile.balance.value) - total)
                   && profile.transactions == old(profile.transactions)
                        + [Transaction(-total, TransactionType.Withdrawal, "Order payment")]
                   && cart.items == [] && cart.totalAmount == 0)
      && (!paid ==> && s.products == savedProducts && s.orders == savedOrders && unchanged(cart)
                    && profile.balance == old(profile.balance) && profile.transactions == old(profile.transactions))
  {
    RecalculateTotal(s, id);
    total := s.orders[id].totalAmount;
    paid := profile.Withdraw(total);
    if !paid {
      // raise Exception(...): the block is undone
      s.products, s.orders := savedProducts, savedOrders;
      return;
    }
    // cart_items.delete() bypasses CartItem.delete, hence the explicit reset of the total
    cart.items := [];
    cart.totalAmount := 0;
  }

  /**
   * The atomic block of create_order (orders/views.py:129-169), entered once the
   * checks have passed, on the caller's cart and profile.
   */
  method PlaceOrder(s: Store, user: User, cart: Cart, profile: UserProfile, shipping: Shipping)
    returns (r: Result<Order, CreateError>)
    requires PricedIn(cart.items, Prices(s.products))
    requires !profile.user.isStaff && profile.balance.Some?
    modifies s`products, s`orders, s`nextOrderId, cart, profile`balance, profile`transactions
    ensures s.nextOrderId == old(s.nextOrderId) + 1
    ensures var pl := Place(old(cart.items), old(s.products), old(s.orders), old(s.nextOrderId), user.id, shipping,
                            old(profile.balance.value));
      && r == pl.result && s.products == pl.products && s.orders == pl.orders
      && (pl.paid ==> && cart.items == [] && cart.totalAmount == 0
                      && profile.balance == Some(old(profile.balance.value) - r.value.totalAmount)
                      && profile.transactions == old(profile.transactions)
                           + [Transaction(-r.value.totalAmount, TransactionType.Withdrawal, "Order payment")])
      && (!pl.paid ==> cart.items == old(cart.items) && cart.totalAmount == old(cart.totalAmount)
                       && profile.balance == old(profile.balance)
                       && profile.transactions == old(profile.transactions))
  {
    ghost var pl := Place(cart.items, s.products, s.orders, s.nextOrderId, user.id, shipping, profile.balance.value);
    // with transaction.atomic(): what a raise puts back
    var savedProducts, savedOrders := s.products, s.orders;
    // serializer.save() creates the order with total 0 and status PENDING; its
    // OrderItem rows are created by the loop, and the order is filed with them
    var id := s.nextOrderId;
    s.nextOrderId := s.nextOrderId + 1;
    var items, short := FillOrder(s, cart.items);
    s.orders := s.orders[id := Order(id, user.id, shipping, DefaultStatus, 0, items)];
    if short.Some? {
      // an ordinary return: the block commits
      r := Err(NotEnoughStock(short.value, s.products[short.value].stock));
      assert pl == Placement(r, s.products, s.orders, false);
      return;
    }
    var paid, total := Settle(s, id, cart, profile, savedProducts, savedOrders);
    if !paid {
      r := Err(WithdrawFailed);
      assert pl == Placement(r, s.products, s.orders, false);
      return;
    }
    r := Ok(s.orders[id]);
    assert r == Ok(Order(id, user.id, shipping, DefaultStatus, total, items));
    assert pl == Placement(r, s.products, s.orders, true);
    assert cart.items == [] && cart.totalAmount == 0;
  }

  /**
   * The atomic block run on a cart whose stored total is its sum, for a user whose
   * balance covers it: a paid order's total is the cart's stored total, the
   * withdrawal is refused only for a cart total that is not positive, prices do not
   * move, and every order stays filed under its key and refers to existing products.
   */
  method OrderFromCart(s: Store, user: User, cart: Cart, profile: UserProfile, shipping: Shipping)
    returns (r: Result<Order, CreateError>)
    requires cart.Valid(Prices(s.products))
    requires !profile.user.isStaff && profile.balance.Some? && profile.balance.value >= cart.totalAmount
    requires forall k :: k in s.orders ==> s.orders[k].id == k && k < s.nextOrderId && ItemsIn(s.orders[k].items, s.products)
    modifies s`products, s`orders, s`nextOrderId, cart, profile`balance, profile`transactions
    ensures forall k :: k in s.orders ==> s.orders[k].id == k && k < s.nextOrderId && ItemsIn(s.orders[k].items, s.products)
    ensures SamePrices(s.products, old(s.products))
    ensures s.nextOrderId == old(s.nextOrderId) + 1
    ensures var pl := Place(old(cart.items), old(s.products), old(s.orders), old(s.nextOrderId), user.id, shipping,
                            old(profile.balance.value));
      && r == pl.result && s.products == pl.products && s.orders == pl.orders
      && (pl.paid ==> && r.value.totalAmount == old(cart.totalAmount)
                      && cart.items == [] && cart.totalAmount == 0
                      && profile.balance == Some(old(profile.balance.value) - r.value.totalAmount)
                      && profile.transactions == old(profile.transactions)
                           + [Transaction(-r.value.totalAmount, TransactionType.Withdrawal, "Order payment")])
      && (!pl.paid ==> cart.items == old(cart.items) && cart.totalAmount == old(cart.totalAmount)
                       && profile.balance == old(profile.balance)
                       && profile.transactions == old(profile.transactions))
    ensures r == Err(WithdrawFailed) ==> old(cart.totalAmount) <= 0
  {
    ghost var lines, inv, orders, id := cart.items, s.products, s.orders, s.nextOrderId;
    PlaceKeepsTables(lines, inv, orders, id, user.id, shipping, profile.balance.value);
    PlaceAfterChecks(lines, inv, orders, id, user.id, shipping, profile.balance.value);
    r := PlaceOrder(s, user, cart, profile, shipping);
  }

  /**
   * The atomic block run for the owner of `cart` and `profile` once the checks have
   * passed, on a store whose invariant holds; the invariant still holds after it.
   */
  method CheckOut(s: Store, user: User, cart: Cart, profile: UserProfile, shipping: Shipping)
    returns (r: Result<Order, CreateError>)
    requires s.Valid() && user.id in s.carts && s.carts[user.id] == cart
    requires !profile.user.isStaff && profile.balance.Some? && profile.balance.value >= cart.totalAmount
    modifies s`products, s`orders, s`nextOrderId, cart, profile`balance, profile`transactions
    ensures s.Valid()
    ensures s.carts == old(s.carts) && s.profiles == old(s.profiles)
    ensures s.nextOrderId == old(s.nextOrderId) + 1
    ensures var pl := Place(old(cart.items), old(s.products), old(s.orders), old(s.nextOrderId), user.id, shipping,
                            old(profile.balance.value));
      && r == pl.result && s.products == pl.products && s.orders == pl.orders
      && (pl.paid ==> && r.value.totalAmount == old(cart.totalAmount)
                      && cart.items == [] && cart.totalAmount == 0
                      && profile.balance == Some(old(profile.balance.value) - r.value.totalAmount)
                      && profile.transactions == old(profile.transactions)
                           + [Transaction(-r.value.totalAmount, TransactionType.Withdrawal, "Order payment")])
      && (!pl.paid ==> && cart.items == old(cart.items) && cart.totalAmount == old(cart.totalAmount)
                       && profile.balance == old(profile.balance)
                       && profile.transactions == old(profile.transactions))
    ensures r == Err(WithdrawFailed) ==> old(cart.totalAmount) <= 0
  {
    r := OrderFromCart(s, user, cart, profile, shipping);
    StockMoveKeepsValid(s);
  }

  /**
   * The checks create_order makes before its atomic block, in the source's order:
   * a staff account, a missing or empty cart, a missing profile or balance, or a
   * balance below the cart's stored total, and invalid shipping data.
   */
  function Refusal(isStaff: bool, lines: seq<CartItem>, balance: Option<int>, cartTotal: int,
                   shipping: Option<Shipping>): (e: Option<CreateError>)
    ensures e.Some? ==> e.value in {StaffCannotOrder, EmptyCart, InsufficientBalance, InvalidShipping}
  {
    if isStaff then Some(StaffCannotOrder)
    else if lines == [] then Some(EmptyCart)
    else if balance.None? || balance.value < cartTotal then Some(InsufficientBalance)
    else if shipping.None? then Some(InvalidShipping)
    else None
  }

  /**
   * Each refusal names the first check that fails, and a request that passes them
   * all comes with a balance that covers the cart and with shipping data.
   */
  lemma RefusalCases(isStaff: bool, lines: seq<CartItem>, balance: Option<int>, cartTotal: int,
                     shipping: Option<Shipping>)
    ensures var e := Refusal(isStaff, lines, balance, cartTotal, shipping);
      && (e == Some(StaffCannotOrder) <==> isStaff)
      && (e == Some(EmptyCart) <==> !isStaff && lines == [])
      && (e == Some(InsufficientBalance) <==>
            !isStaff && lines != [] && (balance.None? || balance.value < cartTotal))
      && (e == Some(InvalidShipping) <==>
            !isStaff && lines != [] && balance.Some? && balance.value >= cartTotal && shipping.None?)
      && (e.None? <==> !isStaff && lines != [] && balance.Some? && balance.value >= cartTotal && shipping.Some?)
  {
  }

  /**
   * create_order (orders/views.py:89-171). A refused request changes nothing; an
   * admitted one runs the atomic block, Place, on the user's cart and balance.
   */
  method CreateOrder(s: Store, user: User, shipping: Option<Shipping>) returns (r: Result<Order, CreateError>)
    requires s.Valid()
    requires user.id in s.profiles ==> s.profiles[user.id].user == user
    modifies s`products, s`orders, s`nextOrderId, s.CartOf(user.id), s.ProfileOf(user.id)
    ensures s.Valid()
    // the profile still reads the same user, so the next view may be called for it
    ensures user.id in s.profiles ==> s.profiles[user.id].user == old(s.profiles[user.id].user)
    ensures var refusal := Refusal(user.isStaff, old(s.LinesOf(user.id)), old(s.BalanceOf(user.id)),
                                   old(s.CartTotalOf(user.id)), shipping);
      refusal.Some? ==>
        && r == Err(refusal.value)
        && s.products == old(s.products) && s.orders == old(s.orders) && s.nextOrderId == old(s.nextOrderId)
        && unchanged(s.CartOf(user.id)) && unchanged(s.ProfileOf(user.id))
    ensures var refusal := Refusal(user.isStaff, old(s.LinesOf(user.id)), old(s.BalanceOf(user.id)),
                                   old(s.CartTotalOf(user.id)), shipping);
      refusal.None? ==>
      && user.id in s.carts && user.id in s.profiles
      && var cart, profile := s.carts[user.id], s.profiles[user.id];
      && var pl := Place(old(cart.items), old(s.products), old(s.orders), old(s.nextOrderId),
                         user.id, shipping.value, old(profile.balance.value));
      && r == pl.result && s.products == pl.products && s.orders == pl.orders
      && s.nextOrderId == old(s.nextOrderId) + 1
      && (pl.paid ==> && r.value.totalAmount == old(cart.totalAmount)
                      && cart.items == [] && cart.totalAmount == 0
                      && profile.balance == Some(old(profile.balance.value) - r.value.totalAmount)
                      && profile.transactions == old(profile.transactions)
                           + [Transaction(-r.value.totalAmount, TransactionType.Withdrawal, "Order payment")])
      && (!pl.paid ==> cart.items == old(cart.items) && cart.totalAmount == old(cart.totalAmount)
                       && profile.balance == old(profile.balance)
                       && profile.transactions == old(profile.transactions))
    ensures r == Err(WithdrawFailed) ==> old(s.CartTotalOf(user.id)) <= 0
  {
    ghost var refusal := Refusal(user.isStaff, s.LinesOf(user.id), s.BalanceOf(user.id), s.CartTotalOf(user.id), shipping);
    if user.isStaff {
      assert refusal == Some(StaffCannotOrder);
      return Err(StaffCannotOrder);
    }
    if user.id !in s.carts || s.carts[user.id].items == [] {
      assert refusal == Some(EmptyCart);
      return Err(EmptyCart);
    }
    var cart := s.carts[user.id];
    if user.id !in s.profiles || s.profiles[user.id].balance.None?
       || s.profiles[user.id].balance.value < cart.totalAmount {
      assert refusal == Some(InsufficientBalance);
      return Err(InsufficientBalance);
    }
    var profile := s.profiles[user.id];
    if shipping.None? {
      assert refusal == Some(InvalidShipping);
      return Err(InvalidShipping);
    }
    assert refusal.None?;
    r := CheckOut(s, user, cart, profile, shipping.value);
    assert s.carts[user.id] == cart && s.profiles[user.id] == profile;
  }

  datatype CancelError =
    | StaffHasNoOrders   // 400 "Admin users do not have orders to cancel."
    | OrderNotFound      // 404 "Order not found."
    | AlreadyCancelled   // 400 "Order is already cancelled."
    | NotCancellable     // 400 "Cannot cancel an order that has been shipped or delivered."
    | NoProfile          // `user.profile` raises inside the atomic block, which is undone
    | RefundFailed       // 400 "Failed to process refund.", returned from inside the block

  /**
   * The checks cancel_order makes before its atomic block, in the source's order:
   * a staff account, an order that is missing or belongs to someone else, an order
   * already cancelled, an order shipped or delivered.
   */
  function CancelRefusal(isStaff: bool, user: UserId, orders: map<OrderId, Order>, id: OrderId): (e: Option<CancelError>)
    ensures e.Some? ==> e.value in {StaffHasNoOrders, OrderNotFound, AlreadyCancelled, NotCancellable}
  {
    if isStaff then Some(StaffHasNoOrders)
    else if id !in orders || orders[id].owner != user then Some(OrderNotFound)
    else if orders[id].status == Cancelled then Some(AlreadyCancelled)
    else if orders[id].status in {Shipped, Delivered} then Some(NotCancellable)
    else None
  }

  /**
   * Each refusal names the first check that fails; only the user's own pending or
   * processing orders reach the atomic block.
   */
  lemma CancelRefusalCases(isStaff: bool, user: UserId, orders: map<OrderId, Order>, id: OrderId)
    ensures var e := CancelRefusal(isStaff, user, orders, id);
      && (e == Some(StaffHasNoOrders) <==> isStaff)
      && (e == Some(OrderNotFound) <==> !isStaff && (id !in orders || orders[id].owner != user))
      && (e == Some(AlreadyCancelled) <==>
            !isStaff && id in orders && orders[id].owner == user && orders[id].status == Cancelled)
      && (e == Some(NotCancellable) <==>
            !isStaff && id in orders && orders[id].owner == user && orders[id].status in {Shipped, Delivered})
      && (e.None? <==>
            !isStaff && id in orders && orders[id].owner == user && orders[id].status in {Pending, Processing})
  {
  }

  /** The description of the refund entry: "Refund for cancelled order #" and the order's key. */
  function RefundNote(id: OrderId): string {
    "Refund for cancelled order #" + NatToString(id)
  }

  /** Refund entries of different orders carry different descriptions. */
  lemma RefundNoteNamesOrder(a: OrderId, b: OrderId)
    ensures RefundNote(a) == RefundNote(b) <==> a == b
  {
    var prefix := "Refund for cancelled order #";
    if RefundNote(a) == RefundNote(b) {
      assert NatToString(a) == RefundNote(a)[|prefix|..];
      assert NatToString(b) == RefundNote(b)[|prefix|..];
      NatToStringRoundTrip(a);
      NatToStringRoundTrip(b);
    }
  }

  /** What the atomic block of cancel_order leaves: its response, the product table and the order. */
  datatype Cancellation = Cancellation(result: Result<int, CancelError>, products: Inventory, order: Order)

  /**
   * The atomic block of cancel_order on order `o`: the items' units go back to stock
   * and a total recorded as 0 is recalculated; then the refund. Without a profile
   * the block raises and is undone; a refund refused (a total that is not positive)
   * returns from inside the block, which keeps the restock and the recalculated
   * total; otherwise the order is cancelled and its total refunded.
   */
  function Cancel(o: Order, inv: Inventory, hasProfile: bool): (c: Cancellation)
    requires ItemsIn(o.items, inv)
    ensures c.order.id == o.id && c.order.owner == o.owner && c.order.items == o.items
    ensures c.result.Ok? <==> hasProfile && Patched(o).totalAmount > 0
    ensures c.result.Ok? ==> c.order.status == Cancelled && c.result.value == c.order.totalAmount > 0
    ensures c.result.Err? ==> c.order.status == o.status
  {
    var restocked := Restock(o.items, inv);
    var counted := Patched(o);
    if !hasProfile then Cancellation(Err(NoProfile), inv, o)
    else if counted.totalAmount <= 0 then Cancellation(Err(RefundFailed), restocked, counted)
    else Cancellation(Ok(counted.totalAmount), restocked, counted.(status := Cancelled))
  }

  /**
   * Unless the block is undone, every unit of every item goes back: each product's
   * stock rises by exactly the units the order holds of it.
   */
  lemma CancelRestocks(o: Order, inv: Inventory, hasProfile: bool, p: ProductId)
    requires ItemsIn(o.items, inv) && p in inv
    ensures var c := Cancel(o, inv, hasProfile);
      && SamePrices(c.products, inv)
      && c.products[p].stock == inv[p].stock + (if hasProfile then QuantityOf(o.items, p) else 0)
  {
    RestockStock(o.items, inv, p);
  }

  /**
   * Cancelling a paid order undoes its placement: the product table is back as it
   * was before the order, and the refund is exactly the amount withdrawn.
   */
  lemma CancelUndoesPlace(lines: seq<CartItem>, inv: Inventory, orders: map<OrderId, Order>, id: OrderId,
                          owner: UserId, shipping: Shipping, balance: int)
    requires PricedIn(lines, Prices(inv))
    ensures var pl := Place(lines, inv, orders, id, owner, shipping, balance);
      pl.paid ==>
        && ItemsIn(pl.result.value.items, pl.products)
        && var c := Cancel(pl.result.value, pl.products, true);
        && c.result == Ok(pl.result.value.totalAmount)
        && c.products == inv
        && c.order == pl.result.value.(status := Cancelled)
  {
    RestockUndoesFill(lines, inv);
  }

  /**
   * An order committed by a short line was never paid for (its total is 0), yet
   * cancelling it refunds the recalculated sum of the items it holds: whenever those
   * are worth something, the owner is credited money that was never withdrawn.
   */
  lemma CancelRefundsUnpaid(lines: seq<CartItem>, inv: Inventory, orders: map<OrderId, Order>, id: OrderId,
                            owner: UserId, shipping: Shipping, balance: int)
    requires PricedIn(lines, Prices(inv))
    ensures var pl := Place(lines, inv, orders, id, owner, shipping, balance);
      pl.result.Err? && pl.result.error.NotEnoughStock? ==>
        && !pl.paid && id in pl.orders && pl.orders[id].totalAmount == 0
        && ItemsIn(pl.orders[id].items, pl.products)
        && var c := Cancel(pl.orders[id], pl.products, true);
        && (ItemsTotal(pl.orders[id].items) > 0 ==> c.result == Ok(ItemsTotal(pl.orders[id].items)))
        && c.products == inv
  {
    RestockUndoesFill(lines, inv);
  }

  /**
   * The atomic block of cancel_order (orders/views.py:219-243) for a user with a
   * profile: restock, recalculate a zero total, refund, and cancel.
   */
  method CancelBlock(s: Store, id: OrderId, profile: UserProfile) returns (r: Result<int, CancelError>)
    requires id in s.orders && ItemsIn(s.orders[id].items, s.products) && !profile.user.isStaff
    modifies s`products, s`orders, profile`balance, profile`transactions
    ensures var c := Cancel(old(s.orders[id]), old(s.products), true);
      && r == c.result && s.products == c.products && s.orders == old(s.orders)[id := c.order]
      && (r.Ok? ==> && profile.balance == Some(Amount(old(profile.balance)) + r.value)
                    && profile.transactions == old(profile.transactions)
                         + [Transaction(r.value, TransactionType.Refund, RefundNote(id))])
      && (r.Err? ==> profile.balance == old(profile.balance) && profile.transactions == old(profile.transactions))
  {
    var items := s.orders[id].items;
    RestockOrder(s, items);
    if s.orders[id].totalAmount == 0 {
      RecalculateTotal(s, id);
    }
    var amount := s.orders[id].totalAmount;
    var ok := profile.Refund(amount, RefundNote(id));
    if !ok {
      // an ordinary return: the block commits the restock and the recalculated total
      return Err(RefundFailed);
    }
    s.orders := s.orders[id := s.orders[id].(status := Cancelled)];
    return Ok(amount);
  }

  /**
   * cancel_order (orders/views.py:192-248). A refused request changes nothing; an
   * admitted one runs the atomic block, Cancel, on the order and the product table.
   */
  method CancelOrder(s: Store, user: User, id: OrderId) returns (r: Result<int, CancelError>)
    requires s.Valid()
    requires user.id in s.profiles ==> s.profiles[user.id].user == user
    modifies s`products, s`orders, s.ProfileOf(user.id)
    ensures s.Valid()
    // the profile still reads the same user, so the next view may be called for it
    ensures user.id in s.profiles ==> s.profiles[user.id].user == old(s.profiles[user.id].user)
    ensures var refusal := CancelRefusal(user.isStaff, user.id, old(s.orders), id);
      refusal.Some? ==>
        && r == Err(refusal.value)
        && s.products == old(s.products) && s.orders == old(s.orders) && unchanged(s.ProfileOf(user.id))
    ensures var refusal := CancelRefusal(user.isStaff, user.id, old(s.orders), id);
      refusal.None? ==>
        && var c := Cancel(old(s.orders[id]), old(s.products), user.id in s.profiles);
        && r == c.result && s.products == c.products && s.orders == old(s.orders)[id := c.order]
        && (user.id in s.profiles ==>
              var profile := s.profiles[user.id];
              && (r.Ok? ==> && profile.balance == Some(Amount(old(profile.balance)) + r.value)
                            && profile.transactions == old(profile.transactions)
                                 + [Transaction(r.value, TransactionType.Refund, RefundNote(id))])
              && (r.Err? ==> profile.balance == old(profile.balance)
                             && profile.transactions == old(profile.transactions)))
  {
    if user.isStaff {
      return Err(StaffHasNoOrders);
    }
    if id !in s.orders || s.orders[id].owner != user.id {
      return Err(OrderNotFound);
    }
    if s.orders[id].status == Cancelled {
      return Err(AlreadyCancelled);
    }
    if s.orders[id].status in {Shipped, Delivered} {
      return Err(NotCancellable);
    }
    if user.id !in s.profiles {
      // the restock and the recalculation run, then `user.profile` raises and the
      // block is undone: the tables are as they were
      return Err(NoProfile);
    }
    r := CancelBlock(s, id, s.profiles[user.id]);
    StockMoveKeepsValid(s);
  }

  /**
   * The queryset of order_list: the keys below `n` of u's orders that are not
   * cancelled, newest first (Order.Meta orders by -created_at, and keys are handed
   * out in creation order).
   */
  function OwnVisible(orders: map<OrderId, Order>, u: UserId, n: nat): (ids: seq<OrderId>)
    ensures forall i :: 0 <= i < |ids| ==> ids[i] < n && ids[i] in orders
  {
    if n == 0 then []
    else
      var k := n - 1;
      (if k in orders && orders[k].owner == u && Visible(orders[k]) then [k] else []) + OwnVisible(orders, u, k)
  }

  /** The list holds exactly u's orders that are not cancelled, each once, newest first. */
  lemma {:induction false} OwnVisibleExactly(orders: map<OrderId, Order>, u: UserId, n: nat)
    ensures var ids := OwnVisible(orders, u, n);
      && (forall k :: k in ids <==> k < n && k in orders && orders[k].owner == u && Visible(orders[k]))
      && (forall i, j :: 0 <= i < j < |ids| ==> ids[i] > ids[j])
  {
    if n > 0 {
      OwnVisibleExactly(orders, u, n - 1);
    }
  }

  /**
   * The loop of order_list over the listed keys: each order whose stored total is 0
   * gets it recalculated and saved, and is listed as it then stands.
   */
  method PatchEach(s: Store, ids: seq<OrderId>) returns (listed: seq<Order>)
    requires forall i :: 0 <= i < |ids| ==> ids[i] in s.orders
    requires forall i, j :: 0 <= i < j < |ids| ==> ids[i] != ids[j]
    modifies s`orders
    ensures |listed| == |ids|
    ensures forall i :: 0 <= i < |ids| ==> listed[i] == Patched(old(s.orders)[ids[i]])
    ensures s.orders.Keys == old(s.orders).Keys
    ensures forall k :: k in s.orders ==> s.orders[k] == if k in ids then Patched(old(s.orders)[k]) else old(s.orders)[k]
  {
    ghost var orders0 := s.orders;
    listed := [];
    var i := 0;
    while i < |ids|
      invariant 0 <= i <= |ids|
      invariant |listed| == i
      invariant forall j :: 0 <= j < i ==> listed[j] == Patched(orders0[ids[j]])
      invariant s.orders.Keys == orders0.Keys
      invariant forall k :: k in s.orders ==> s.orders[k] == if k in ids[..i] then Patched(orders0[k]) else orders0[k]
    {
      var id := ids[i];
      assert id !in ids[..i];
      assert s.orders[id] == orders0[id];
      if s.orders[id].totalAmount == 0 {
        RecalculateTotal(s, id);
      }
      assert s.orders[id] == Patched(orders0[id]);
      listed := listed + [s.orders[id]];
      assert ids[..i + 1] == ids[..i] + [id];
      i := i + 1;
    }
    assert ids[..i] == ids;
  }

  /** The orders of u that order_list shows, each with its total as recalculate_total leaves it. */
  method OrderList(s: Store, user: User) returns (listed: seq<Order>)
    requires s.Valid()
    modifies s`orders
    ensures s.Valid()
    ensures var ids := OwnVisible(old(s.orders), user.id, old(s.nextOrderId));
      && |listed| == |ids|
      && (forall i :: 0 <= i < |ids| ==> listed[i] == Patched(old(s.orders)[ids[i]]))
      && s.orders.Keys == old(s.orders).Keys
      && (forall k :: k in s.orders ==> s.orders[k] == if k in ids then Patched(old(s.orders)[k]) else old(s.orders)[k])
  {
    var ids := OwnVisible(s.orders, user.id, s.nextOrderId);
    OwnVisibleExactly(s.orders, user.id, s.nextOrderId);
    listed := PatchEach(s, ids);
    StockMoveKeepsValid(s);
  }

  datatype DetailError =
    | DetailNotFound     // 404 "Order not found."
    | DetailCancelled    // 404 "This order has been cancelled."

  /** What order_detail answers for order `id` asked for by user u. */
  function Detail(orders: map<OrderId, Order>, u: UserId, id: OrderId): (r: Result<Order, DetailError>)
    ensures r.Ok? ==> id in orders && r.value == Patched(orders[id])
  {
    if id !in orders || orders[id].owner != u then Err(DetailNotFound)
    else if orders[id].status == Cancelled then Err(DetailCancelled)
    else Ok(Patched(orders[id]))
  }

  /**
   * The detail view answers with an order exactly when the list view lists it, and
   * both show it with the same total.
   */
  lemma DetailAgreesWithList(orders: map<OrderId, Order>, u: UserId, n: nat, id: OrderId)
    requires forall k :: k in orders ==> k < n
    ensures Detail(orders, u, id).Ok? <==> id in OwnVisible(orders, u, n)
  {
    OwnVisibleExactly(orders, u, n);
  }

  /** order_detail (orders/views.py:56-74). */
  method OrderDetail(s: Store, user: User, id: OrderId) returns (r: Result<Order, DetailError>)
    requires s.Valid()
    modifies s`orders
    ensures s.Valid()
    ensures r == Detail(old(s.orders), user.id, id)
    ensures s.orders == if r.Ok? then old(s.orders)[id := r.value] else old(s.orders)
  {
    if id !in s.orders || s.orders[id].owner != user.id {
      return Err(DetailNotFound);
    }
    if s.orders[id].status == Cancelled {
      return Err(DetailCancelled);
    }
    if s.orders[id].totalAmount == 0 {
      RecalculateTotal(s, id);
    }
    r := Ok(s.orders[id]);
    StockMoveKeepsValid(s);
  }
}
