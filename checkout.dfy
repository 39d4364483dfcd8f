/**
 * The stock side of orders/views.py as functions: the per-line loop of
 * create_order (lines 134-151) and the restitution loop of cancel_order
 * (lines 221-224), with the facts that tie them to the cart total, to the
 * stock counters and to each other.
 */
module Checkout {
  import opened Common
  import opened Catalog
  import opened Carts
  import opened OrderModels

  /**
   * Where the per-line loop of create_order stands: the order items created so far,
   * the product table as decremented so far, and the product whose line found too
   * little stock, once one has.
   */
  datatype Fill = Fill(items: seq<OrderItem>, inventory: Inventory, shortOf: Option<ProductId>)

  /**
   * One iteration: re-check the stock; on success create the item at the current
   * price and decrement that product's stock. After a failure nothing more happens.
   */
  function FillStep(f: Fill, line: CartItem): Fill
    requires line.product in f.inventory
  {
    if f.shortOf.Some? then f
    else
      var product := f.inventory[line.product];
      if line.quantity > product.stock then f.(shortOf := Some(line.product))
      else Fill(f.items + [OrderItem(line.product, line.quantity, product.price)],
                WithStock(f.inventory, line.product, product.stock - line.quantity), None)
  }

  /** A line with enough stock makes its item and takes its units; nothing else changes. */
  lemma FillStepTakes(f: Fill, line: CartItem)
    requires f.shortOf.None? && line.product in f.inventory
    requires line.quantity <= f.inventory[line.product].stock
    ensures var product := f.inventory[line.product];
      FillStep(f, line) == Fill(f.items + [OrderItem(line.product, line.quantity, product.price)],
                                WithStock(f.inventory, line.product, product.stock - line.quantity), None)
  {
  }

  /** The loop run over the cart lines in order, from the given product table. */
  function FillLines(lines: seq<CartItem>, inv: Inventory): (f: Fill)
    requires PricedIn(lines, Prices(inv))
    ensures SamePrices(f.inventory, inv)
    ensures f.shortOf.Some? ==> f.shortOf.value in inv
  {
    if lines == [] then Fill([], inv, None)
    else FillStep(FillLines(lines[..|lines| - 1], inv), lines[|lines| - 1])
  }

  /**
   * The run stops at the first line whose quantity exceeds the stock then left, and
   * only there: every line before it made one item.
   */
  lemma {:induction false} FillFollowsLines(lines: seq<CartItem>, inv: Inventory)
    requires PricedIn(lines, Prices(inv))
    ensures var f := FillLines(lines, inv);
      && |f.items| <= |lines|
      && (f.shortOf.None? ==> |f.items| == |lines|)
      && (f.shortOf.Some? ==> |f.items| < |lines| && f.shortOf.value == lines[|f.items|].product
                              && lines[|f.items|].quantity > f.inventory[lines[|f.items|].product].stock)
    decreases |lines|
  {
    if lines != [] {
      FillFollowsLines(lines[..|lines| - 1], inv);
    }
  }

  /** Item i repeats line i, with the price the product had. */
  lemma {:induction false} FillItems(lines: seq<CartItem>, inv: Inventory)
    requires PricedIn(lines, Prices(inv))
    ensures var f := FillLines(lines, inv);
      && |f.items| <= |lines|
      && forall i :: 0 <= i < |f.items| ==>
           f.items[i] == OrderItem(lines[i].product, lines[i].quantity, inv[lines[i].product].price)
    decreases |lines|
  {
    if lines != [] {
      var n := |lines| - 1;
      var pre := lines[..n];
      FillItems(pre, inv);
      FillFollowsLines(pre, inv);
      var f0 := FillLines(pre, inv);
      var f := FillLines(lines, inv);
      var line := lines[n];
      assert f == FillStep(f0, line);
      if f0.shortOf.None? && line.quantity <= f0.inventory[line.product].stock {
        FillStepTakes(f0, line);
        assert f.items == f0.items + [OrderItem(line.product, line.quantity, inv[line.product].price)];
        assert |f0.items| == n;
      } else {
        assert f.items == f0.items;
      }
      forall i | 0 <= i < |f.items|
        ensures f.items[i] == OrderItem(lines[i].product, lines[i].quantity, inv[lines[i].product].price)
      {
        if i < |f0.items| {
          assert f.items[i] == f0.items[i] && pre[i] == lines[i];
        }
      }
    }
  }

  /** Stock never goes negative: each product's counter drops by exactly the units ordered. */
  lemma {:induction false} FillStock(lines: seq<CartItem>, inv: Inventory, p: ProductId)
    requires PricedIn(lines, Prices(inv)) && p in inv
    ensures var f := FillLines(lines, inv);
      f.inventory[p].stock + QuantityOf(f.items, p) == inv[p].stock
    decreases |lines|
  {
    if lines != [] {
      var pre := lines[..|lines| - 1];
      FillStock(pre, inv, p);
      var f0 := FillLines(pre, inv);
      var f := FillLines(lines, inv);
      if f.items != f0.items {
        assert f.items == f0.items + [f.items[|f.items| - 1]];
        assert f.items[..|f.items| - 1] == f0.items;
      }
    }
  }

  /** Once a line has failed, the lines after it change nothing. */
  lemma {:induction false} FillAfterShort(lines: seq<CartItem>, k: nat, inv: Inventory)
    requires PricedIn(lines, Prices(inv)) && k <= |lines|
    requires FillLines(lines[..k], inv).shortOf.Some?
    ensures FillLines(lines, inv) == FillLines(lines[..k], inv)
    decreases |lines| - k
  {
    if k < |lines| {
      var n := |lines| - 1;
      var pre := lines[..n];
      assert pre[..k] == lines[..k];
      FillAfterShort(pre, k, inv);
      var g := FillLines(pre, inv);
      assert g.shortOf.Some? && FillLines(lines, inv) == FillStep(g, lines[n]);
    } else {
      assert lines[..k] == lines;
    }
  }

  /**
   * The recalculated order total is the cart total of the lines that were turned
   * into items; when no line failed, that is the whole cart's total.
   */
  lemma {:induction false} FillTotal(lines: seq<CartItem>, inv: Inventory)
    requires PricedIn(lines, Prices(inv))
    ensures var f := FillLines(lines, inv);
      |f.items| <= |lines| && ItemsTotal(f.items) == LinesTotal(lines[..|f.items|], Prices(inv))
    ensures FillLines(lines, inv).shortOf.None? ==> ItemsTotal(FillLines(lines, inv).items) == LinesTotal(lines, Prices(inv))
    decreases |lines|
  {
    FillFollowsLines(lines, inv);
    var f := FillLines(lines, inv);
    if lines != [] {
      var n := |lines| - 1;
      var pre := lines[..n];
      var line := lines[n];
      FillTotal(pre, inv);
      FillFollowsLines(pre, inv);
      var f0 := FillLines(pre, inv);
      assert f == FillStep(f0, line);
      if f0.shortOf.None? && line.quantity <= f0.inventory[line.product].stock {
        FillStepTakes(f0, line);
        assert f.items[..n] == f0.items && f.items[n].price == inv[line.product].price;
        assert lines[..n + 1] == lines;
      } else {
        assert f.items == f0.items;
        assert pre[..|f0.items|] == lines[..|f.items|];
      }
    }
    if f.shortOf.None? {
      assert lines[..|f.items|] == lines;
    }
  }

  /** The restitution loop of cancel_order: each item's units go back to its product. */
  function Restock(items: seq<OrderItem>, inv: Inventory): (r: Inventory)
    requires ItemsIn(items, inv)
    ensures SamePrices(r, inv)
  {
    if items == [] then inv
    else
      var r0 := Restock(items[..|items| - 1], inv);
      var it := items[|items| - 1];
      WithStock(r0, it.product, r0[it.product].stock + it.quantity)
  }

  lemma {:induction false} RestockStock(items: seq<OrderItem>, inv: Inventory, p: ProductId)
    requires ItemsIn(items, inv) && p in inv
    ensures Restock(items, inv)[p].stock == inv[p].stock + QuantityOf(items, p)
    decreases |items|
  {
    if items != [] {
      RestockStock(items[..|items| - 1], inv, p);
    }
  }

  /**
   * Cancelling returns exactly what ordering took: restocking the items of a run
   * of the loop gives back the product table the run started from. This holds for
   * an order cut short by a failed line as well.
   */
  lemma RestockUndoesFill(lines: seq<CartItem>, inv: Inventory)
    requires PricedIn(lines, Prices(inv))
    ensures ItemsIn(FillLines(lines, inv).items, FillLines(lines, inv).inventory)
    ensures Restock(FillLines(lines, inv).items, FillLines(lines, inv).inventory) == inv
  {
    var f := FillLines(lines, inv);
    FillFollowsLines(lines, inv);
    var r := Restock(f.items, f.inventory);
    forall p | p in inv
      ensures r[p] == inv[p]
    {
      FillStock(lines, inv, p);
      RestockStock(f.items, f.inventory, p);
      assert r[p].price == inv[p].price;
    }
  }
}
