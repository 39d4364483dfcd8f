/**
 * The business logic of cart/views.py: add_to_cart (an upsert of the
 * (cart, product) line guarded by a stock check), remove_from_cart (scoped to the
 * caller's own cart) and view_cart. Authentication and response formatting are
 * outside the model; each error response is one AddError or RemoveError value.
 */
module CartViews {
  import opened Common
  import opened Catalog
  import opened Carts
  import opened Shop

  datatype AddError =
    | ProductIdRequired            // 400 "Product ID is required."
    | ProductNotFound              // 404
    | NonPositiveQuantity          // 400 "Quantity must be greater than zero."
    | OutOfStock                   // 400 "... is out of stock."
    | OnlyAvailable(available: int) // 400 "... Only {available} more units available."

  datatype RemoveError = CartItemNotFound

  datatype CartView = EmptyCart | CartContents(items: seq<CartItem>, total: int)

  /** `if not product_id`: an absent field and the id 0 are both missing. */
  predicate Given(productId: Option<int>) {
    productId.Some? && productId.value != 0
  }

  /** `Product.objects.get(id=product_id)` finds a row. */
  predicate Found(s: Store, productId: Option<int>)
    reads s
  {
    Given(productId) && productId.value > 0 && productId.value as nat in s.products
  }

  /**
   * `CartItem.objects.get_or_create(cart=cart, product=product, defaults={'quantity': 0})`
   * on the cart's lines: the lines afterwards and the index of the product's line. A
   * product without a line gets one of quantity 0, under a fresh key, at the end.
   */
  function Staged(lines: seq<CartItem>, p: ProductId, freshId: CartItemId): (staged: (seq<CartItem>, nat))
    ensures staged.1 < |staged.0| && staged.0[staged.1].product == p
    ensures lines <= staged.0 && |staged.0| <= |lines| + 1
  {
    match IndexOfProduct(lines, p)
    case Some(k) => (lines, k)
    case None => (lines + [CartItem(freshId, p, 0)], |lines|)
  }

  /**
   * The stock check and update of add_to_cart on the staged line k: the response and
   * the lines afterwards. A refused request leaves the staged line as it is.
   */
  function Raise(staged: seq<CartItem>, k: nat, stock: nat, quantity: int): (out: (Result<CartItem, AddError>, seq<CartItem>))
    requires k < |staged| && quantity > 0
    ensures out.0.Ok? ==> out.0.value.product == staged[k].product && out.0.value.quantity <= stock
    ensures out.0.Err? ==> out.0.error == OutOfStock || (out.0.error.OnlyAvailable? && 0 < out.0.error.available < quantity)
  {
    var held := staged[k].quantity;
    if held + quantity > stock then
      (if stock - held <= 0 then Err(OutOfStock) else Err(OnlyAvailable(stock - held)), staged)
    else
      var line := staged[k].(quantity := held + quantity);
      (Ok(line), staged[k := line])
  }

  /** With enough stock the line is raised in place and returned. */
  lemma RaiseTakes(staged: seq<CartItem>, k: nat, stock: nat, quantity: int)
    requires k < |staged| && quantity > 0 && staged[k].quantity + quantity <= stock
    ensures var line := staged[k].(quantity := staged[k].quantity + quantity);
      Raise(staged, k, stock, quantity) == (Ok(line), staged[k := line])
  {
  }

  /**
   * What add_to_cart leaves behind once the request has passed its checks on the
   * product and the quantity: the response and the cart's lines. The line is staged
   * before the stock check, so a refused request can still leave a new line of
   * quantity 0 behind.
   */
  function AddOutcome(lines: seq<CartItem>, p: ProductId, freshId: CartItemId, stock: nat, quantity: int)
    : (out: (Result<CartItem, AddError>, seq<CartItem>))
    requires quantity > 0
    ensures out.0.Ok? ==> out.0.value.product == p && out.0.value.quantity <= stock
  {
    var staged := Staged(lines, p, freshId);
    Raise(staged.0, staged.1, stock, quantity)
  }

  /**
   * The values add_to_cart produces, in terms of the cart before the request. With
   * `held` the quantity of the product's line (0 when the cart has none): the request
   * succeeds exactly when held + quantity fits the stock, and the line then holds
   * held + quantity under its old key, or under the fresh key at the end; a refusal
   * says "out of stock" exactly when stock - held is 0 or less and otherwise offers
   * stock - held units; a refused request leaves the lines as they were, plus a
   * quantity-0 line for a product the cart did not have.
   */
  lemma AddOutcomeValues(lines: seq<CartItem>, p: ProductId, freshId: CartItemId, stock: nat, quantity: int)
    requires quantity > 0
    ensures var found := IndexOfProduct(lines, p);
      var held := if found.Some? then lines[found.value].quantity else 0;
      var out := AddOutcome(lines, p, freshId, stock, quantity);
      && (out.0.Ok? <==> held + quantity <= stock)
      && (out.0.Ok? && found.Some? ==>
            && out.0.value == CartItem(lines[found.value].id, p, held + quantity)
            && out.1 == lines[found.value := out.0.value])
      && (out.0.Ok? && found.None? ==>
            out.0.value == CartItem(freshId, p, quantity) && out.1 == lines + [out.0.value])
      && (out.0 == Err(OutOfStock) <==> held + quantity > stock && stock - held <= 0)
      && (held + quantity > stock && stock - held > 0 ==> out.0 == Err(OnlyAvailable(stock - held)))
      && (out.0.Err? && found.Some? ==> out.1 == lines)
      && (out.0.Err? && found.None? ==> out.1 == lines + [CartItem(freshId, p, 0)])
  {
  }

  /** Staging a line keeps the lines priced and distinct, and their keys below the counter. */
  lemma StagedKeepsCart(lines: seq<CartItem>, p: ProductId, freshId: CartItemId, prices: map<ProductId, int>)
    requires p in prices && PricedIn(lines, prices)
    requires DistinctLines(lines) && KeysBelow(lines, freshId)
    ensures var staged := Staged(lines, p, freshId).0;
      PricedIn(staged, prices) && DistinctLines(staged) && KeysBelow(staged, freshId + 1)
  {
    if IndexOfProduct(lines, p).None? {
      DistinctAppend(lines, CartItem(freshId, p, 0));
    }
  }

  /** The staged line has quantity 0, so staging leaves the total as it was. */
  lemma StagedTotal(lines: seq<CartItem>, p: ProductId, freshId: CartItemId, prices: map<ProductId, int>)
    requires p in prices && PricedIn(lines, prices)
    ensures var staged := Staged(lines, p, freshId).0;
      PricedIn(staged, prices) && LinesTotal(staged, prices) == LinesTotal(lines, prices)
  {
    if IndexOfProduct(lines, p).None? {
      var line := CartItem(freshId, p, 0);
      LinesTotalAppend(lines, [line], prices);
      assert [line][..0] == [];
    }
  }

  /** The stock check and update keep the lines priced and distinct, and hold the line they return. */
  lemma RaiseKeepsCart(staged: seq<CartItem>, k: nat, stock: nat, quantity: int, prices: map<ProductId, int>, bound: nat)
    requires k < |staged| && quantity > 0
    requires PricedIn(staged, prices) && DistinctLines(staged) && KeysBelow(staged, bound)
    ensures var out := Raise(staged, k, stock, quantity);
      && PricedIn(out.1, prices) && DistinctLines(out.1) && KeysBelow(out.1, bound)
      && (out.0.Ok? ==> out.1[k] == out.0.value)
  {
    var held := staged[k].quantity;
    if held + quantity <= stock {
      DistinctRequantify(staged, k, held + quantity, bound);
      LinesTotalRaise(staged, k, quantity, prices);
    }
  }

  /** The total grows by the price of the units added when the request succeeds, and only then. */
  lemma RaiseTotal(staged: seq<CartItem>, k: nat, stock: nat, quantity: int, prices: map<ProductId, int>)
    requires k < |staged| && quantity > 0 && PricedIn(staged, prices)
    ensures var out := Raise(staged, k, stock, quantity);
      && PricedIn(out.1, prices)
      && LinesTotal(out.1, prices) == LinesTotal(staged, prices) + (if out.0.Ok? then prices[staged[k].product] * quantity else 0)
  {
    if staged[k].quantity + quantity <= stock {
      LinesTotalRaise(staged, k, quantity, prices);
    }
  }

  /** A well-formed cart stays well formed through add_to_cart, whatever the outcome. */
  lemma AddOutcomeKeepsCart(lines: seq<CartItem>, p: ProductId, freshId: CartItemId, stock: nat, quantity: int,
                            prices: map<ProductId, int>)
    requires quantity > 0 && p in prices && PricedIn(lines, prices)
    requires DistinctLines(lines) && KeysBelow(lines, freshId)
    ensures var out := AddOutcome(lines, p, freshId, stock, quantity);
      && PricedIn(out.1, prices) && DistinctLines(out.1) && KeysBelow(out.1, freshId + 1)
      && (out.0.Ok? ==> out.0.value in out.1)
  {
    var staged := Staged(lines, p, freshId);
    StagedKeepsCart(lines, p, freshId, prices);
    RaiseKeepsCart(staged.0, staged.1, stock, quantity, prices, freshId + 1);
  }

  /**
   * The cart's total grows by the price of the units added when the request succeeds,
   * and stays the same when it is refused.
   */
  lemma AddOutcomeTotal(lines: seq<CartItem>, p: ProductId, freshId: CartItemId, stock: nat, quantity: int,
                        prices: map<ProductId, int>)
    requires quantity > 0 && p in prices && PricedIn(lines, prices)
    ensures var out := AddOutcome(lines, p, freshId, stock, quantity);
      && PricedIn(out.1, prices)
      && LinesTotal(out.1, prices) == LinesTotal(lines, prices) + (if out.0.Ok? then prices[p] * quantity else 0)
  {
    var staged := Staged(lines, p, freshId);
    StagedTotal(lines, p, freshId, prices);
    RaiseTotal(staged.0, staged.1, stock, quantity, prices);
  }

  /**
   * add_to_cart (cart/views.py:33-85). A missing or zero product id is `None` or 0;
   * a request without a quantity asks for one unit.
   */
  method AddToCart(s: Store, user: User, productId: Option<int>, quantity: int := 1) returns (r: Result<CartItem, AddError>)
    requires s.Valid()
    modifies s`carts, s`nextItemId, s.CartOf(user.id)
    ensures s.Valid()
    // the cart is created on every call, whatever the outcome
    ensures user.id in s.carts && s.carts == old(s.carts)[user.id := s.carts[user.id]]
    ensures old(user.id in s.carts) ==> s.carts[user.id] == old(s.carts[user.id])
    ensures old(user.id !in s.carts) ==> fresh(s.carts[user.id])
    // the checks, in the order the view makes them
    ensures r == Err(ProductIdRequired) <==> !Given(productId)
    ensures r == Err(ProductNotFound) <==> Given(productId) && !Found(s, productId)
    ensures r == Err(NonPositiveQuantity) <==> Found(s, productId) && quantity <= 0
    ensures !Found(s, productId) || quantity <= 0 ==> s.LinesOf(user.id) == old(s.LinesOf(user.id))
    ensures Found(s, productId) && quantity > 0 ==>
      var p := productId.value as nat;
      (r, s.LinesOf(user.id)) == AddOutcome(old(s.LinesOf(user.id)), p, old(s.nextItemId), s.products[p].stock, quantity)
    // the stored total follows the lines
    ensures r.Ok? ==> s.CartTotalOf(user.id) == old(s.CartTotalOf(user.id)) + s.products[r.value.product].price * quantity
    ensures r.Err? ==> s.CartTotalOf(user.id) == old(s.CartTotalOf(user.id))
  {
    ghost var lines0, total0, id0 := s.LinesOf(user.id), s.CartTotalOf(user.id), s.nextItemId;
    var cart := GetOrCreateCart(s, user.id);
    assert cart.items == lines0 && cart.totalAmount == total0;
    if productId.None? || productId.value == 0 {
      return Err(ProductIdRequired);
    }
    if productId.value < 0 || productId.value as nat !in s.products {
      return Err(ProductNotFound);
    }
    if quantity <= 0 {
      return Err(NonPositiveQuantity);
    }
    var p := productId.value as nat;
    AddOutcomeTotal(lines0, p, id0, s.products[p].stock, quantity, Prices(s.products));
    r := AddQuantity(s, cart, p, quantity);
  }

  /**
   * The part of add_to_cart after the checks on the request: stage the line, then
   * either refuse the request for want of stock or raise the line's quantity.
   */
  method AddQuantity(s: Store, cart: Cart, p: ProductId, quantity: int) returns (r: Result<CartItem, AddError>)
    requires s.Valid() && cart.owner in s.carts && s.carts[cart.owner] == cart && p in s.products && quantity > 0
    modifies s`nextItemId, cart
    ensures s.Valid()
    ensures (r, cart.items) == AddOutcome(old(cart.items), p, old(s.nextItemId), s.products[p].stock, quantity)
  {
    var product := s.products[p];
    var k := GetOrCreateLine(s, cart, p);
    ghost var staged := cart.items;
    assert AddOutcome(old(cart.items), p, old(s.nextItemId), product.stock, quantity)
        == Raise(staged, k, product.stock, quantity);
    var line := cart.items[k];
    var newQuantity := line.quantity + quantity;
    if newQuantity > product.stock {
      var available := product.stock - line.quantity;
      r := if available <= 0 then Err(OutOfStock) else Err(OnlyAvailable(available));
      assert (r, cart.items) == Raise(staged, k, product.stock, quantity);
      return;
    }
    var updated := SetLineQuantity(s, cart, k, newQuantity);
    RaiseTakes(staged, k, product.stock, quantity);
    assert updated == staged[k].(quantity := staged[k].quantity + quantity);
    assert cart.items == staged[k := updated];
    r := Ok(updated);
    assert (r, cart.items) == Raise(staged, k, product.stock, quantity);
    assert s.products[p].stock == product.stock;
  }


  /** `cart_item.quantity = new_quantity; cart_item.save()` */
  method SetLineQuantity(s: Store, cart: Cart, k: nat, q: nat) returns (updated: CartItem)
    requires s.Valid() && cart.owner in s.carts && s.carts[cart.owner] == cart && k < |cart.items|
    modifies cart
    ensures s.Valid()
    ensures updated == old(cart.items[k]).(quantity := q)
    ensures cart.items == old(cart.items)[k := updated]
  {
    updated := cart.items[k].(quantity := q);
    DistinctRequantify(cart.items, k, q, s.nextItemId);
    cart.SaveItem(updated, s.products);
  }

  /** `Cart.objects.get_or_create(user=user)` */
  method GetOrCreateCart(s: Store, u: UserId) returns (cart: Cart)
    requires s.Valid()
    modifies s`carts
    ensures s.Valid()
    ensures u in s.carts && cart == s.carts[u] && s.carts == old(s.carts)[u := cart]
    ensures old(u in s.carts) ==> cart == old(s.carts[u])
    ensures old(u !in s.carts) ==> fresh(cart) && cart.items == [] && cart.totalAmount == 0
  {
    if u !in s.carts {
      cart := new Cart(u);
      s.carts := s.carts[u := cart];
    } else {
      cart := s.carts[u];
    }
  }

  /**
   * `CartItem.objects.get_or_create(cart=cart, product=product, defaults={'quantity': 0})`:
   * a created row goes through the CartItem.save override, so the total is recomputed
   * (and stays the same, the new line costing nothing).
   */
  method GetOrCreateLine(s: Store, cart: Cart, p: ProductId) returns (k: nat)
    requires s.Valid() && cart.owner in s.carts && s.carts[cart.owner] == cart && p in s.products
    modifies s`nextItemId, cart
    ensures s.Valid()
    ensures (cart.items, k) == Staged(old(cart.items), p, old(s.nextItemId))
    ensures cart.totalAmount == old(cart.totalAmount)
  {
    ghost var before := cart.items;
    match IndexOfProduct(cart.items, p) {
      case Some(i) =>
        k := i;
      case None =>
        var line := CartItem(s.nextItemId, p, 0);
        DistinctAppend(cart.items, line);
        s.nextItemId := s.nextItemId + 1;
        k := |cart.items|;
        assert IndexOfId(before, line.id).None?;
        assert Upsert(before, line) == before + [line];
        cart.SaveItem(line, s.products);
        LinesTotalAppend(before, [line], Prices(s.products));
        assert [line][..0] == [];
    }
    CartChangeKeepsValid(s);
  }

  method RemoveFromCart(s: Store, user: User, itemId: CartItemId) returns (r: Result<(), RemoveError>)
    requires s.Valid()
    modifies s.CartOf(user.id)
    ensures s.Valid()
    ensures r.Ok? <==> IndexOfId(old(s.LinesOf(user.id)), itemId).Some?
    ensures r.Ok? ==>
      var lines := old(s.LinesOf(user.id));
      var k := IndexOfId(lines, itemId).value;
      && s.LinesOf(user.id) == lines[..k] + lines[k + 1..]
      && s.CartTotalOf(user.id) == old(s.CartTotalOf(user.id)) - LineCost(lines[k], Prices(s.products))
    ensures r.Err? ==> s.LinesOf(user.id) == old(s.LinesOf(user.id)) && s.CartTotalOf(user.id) == old(s.CartTotalOf(user.id))
  {
    if user.id !in s.carts {
      return Err(CartItemNotFound);
    }
    var cart := s.carts[user.id];
    if IndexOfId(cart.items, itemId).None? {
      return Err(CartItemNotFound);
    }
    DistinctRemove(cart.items, IndexOfId(cart.items, itemId).value, s.nextItemId);
    cart.DeleteItem(itemId, s.products);
    return Ok(());
  }

  /** view_cart: a user without a cart sees "Cart is empty." with status 200, not an error. */
  function ViewCart(s: Store, user: User): (v: CartView)
    requires s.Valid()
    reads s, s.carts.Values, s.profiles.Values
    ensures v.EmptyCart? <==> user.id !in s.carts
    ensures v.CartContents? ==> v.items == s.carts[user.id].items && v.total == LinesTotal(v.items, Prices(s.products))
  {
    if user.id in s.carts then CartContents(s.carts[user.id].items, s.carts[user.id].totalAmount) else EmptyCart
  }
}
