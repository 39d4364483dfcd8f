/**
 * The records of orders/models.py: an Order with a status drawn from five
 * choices (PENDING by default) and a stored total, and its OrderItems, each with
 * its own frozen price. Order items live inside their order, which is how deleting
 * an order deletes its items (CASCADE); PROTECT on OrderItem.product is the
 * deletion rule of ProtectKeepsReferences below.
 */
module OrderModels {
  import opened Common
  import opened Catalog

  type OrderId = nat

  /** Order.STATUS_CHOICES */
  datatype Status = Pending | Processing | Shipped | Delivered | Cancelled

  /** The default of Order.status. */
  const DefaultStatus: Status := Pending

  /** The shipping fields OrderCreateSerializer accepts. */
  datatype Shipping = Shipping(fullName: string, address: string, phone: string, email: string)

  /** An OrderItem row: product, quantity and the price at the time of purchase. */
  datatype OrderItem = OrderItem(product: ProductId, quantity: nat, price: int)

  datatype Order = Order(id: OrderId, owner: UserId, shipping: Shipping, status: Status,
                         totalAmount: int, items: seq<OrderItem>)

  /** The sum of price * quantity over an order's items, each at its own frozen price. */
  function ItemsTotal(items: seq<OrderItem>): int {
    if items == [] then 0
    else ItemsTotal(items[..|items| - 1]) + items[|items| - 1].price * items[|items| - 1].quantity
  }

  /** How many units of product p an order's items hold in all. */
  function QuantityOf(items: seq<OrderItem>, p: ProductId): nat {
    if items == [] then 0
    else QuantityOf(items[..|items| - 1], p) + (if items[|items| - 1].product == p then items[|items| - 1].quantity else 0)
  }

  /** Every item refers to a product of the inventory. */
  predicate ItemsIn(items: seq<OrderItem>, inv: Inventory) {
    forall i :: 0 <= i < |items| ==> items[i].product in inv
  }

  /** Whether any item of any order refers to product p. */
  predicate Referenced(orders: map<OrderId, Order>, p: ProductId) {
    exists id, i :: id in orders && 0 <= i < |orders[id].items| && orders[id].items[i].product == p
  }

  /**
   * on_delete=PROTECT: deleting product p leaves every order item referring to an
   * existing product exactly when no order item refers to p, which is the only case
   * in which the database lets the deletion through.
   */
  lemma ProtectKeepsReferences(orders: map<OrderId, Order>, inv: Inventory, p: ProductId)
    requires forall id :: id in orders ==> ItemsIn(orders[id].items, inv)
    ensures !Referenced(orders, p) <==> forall id :: id in orders ==> ItemsIn(orders[id].items, inv - {p})
  {
    if !Referenced(orders, p) {
      forall id, i | id in orders && 0 <= i < |orders[id].items|
        ensures orders[id].items[i].product in inv - {p}
      {
        assert orders[id].items[i].product in inv;
      }
    } else {
      var id, i :| id in orders && 0 <= i < |orders[id].items| && orders[id].items[i].product == p;
      assert !ItemsIn(orders[id].items, inv - {p});
    }
  }

  /** Listing and detail treat a cancelled order as gone. */
  predicate Visible(o: Order) {
    o.status != Cancelled
  }
}
