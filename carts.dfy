/**
 * The shopping cart of cart/models.py: a cart row per user holding a stored
 * total, and cart-item rows (product, quantity). Every CartItem.save and
 * CartItem.delete recomputes the stored total from the lines.
 */
module Carts {
  import opened Common
  import opened Catalog

  type CartItemId = nat

  /** A CartItem row: its primary key, the product it refers to and the quantity held. */
  datatype CartItem = CartItem(id: CartItemId, product: ProductId, quantity: nat)

  /** Every line refers to a priced product (the foreign key of CartItem.product). */
  predicate PricedIn(lines: seq<CartItem>, prices: map<ProductId, int>) {
    forall i :: 0 <= i < |lines| ==> lines[i].product in prices
  }

  /** `item.product.price * item.quantity` */
  function LineCost(line: CartItem, prices: map<ProductId, int>): int
    requires line.product in prices
  {
    prices[line.product] * line.quantity
  }

  /** Raising a line's quantity by `more` raises its cost by `more` units of its price. */
  lemma RaiseCost(line: CartItem, more: int, prices: map<ProductId, int>)
    requires line.product in prices && line.quantity + more >= 0
    ensures LineCost(line.(quantity := line.quantity + more), prices) == LineCost(line, prices) + prices[line.product] * more
  {
    var price := prices[line.product];
    assert price * (line.quantity + more) == price * line.quantity + price * more;
  }

  /** The value update_total accumulates: the sum of the line costs, visited in order. */
  function LinesTotal(lines: seq<CartItem>, prices: map<ProductId, int>): int
    requires PricedIn(lines, prices)
  {
    if lines == [] then 0
    else LinesTotal(lines[..|lines| - 1], prices) + LineCost(lines[|lines| - 1], prices)
  }

  lemma {:induction false} LinesTotalAppend(a: seq<CartItem>, b: seq<CartItem>, prices: map<ProductId, int>)
    requires PricedIn(a, prices) && PricedIn(b, prices)
    ensures PricedIn(a + b, prices)
    ensures LinesTotal(a + b, prices) == LinesTotal(a, prices) + LinesTotal(b, prices)
    decreases |b|
  {
    if b == [] {
      assert a + b == a;
    } else {
      var b' := b[..|b| - 1];
      assert (a + b)[..|a + b| - 1] == a + b';
      LinesTotalAppend(a, b', prices);
    }
  }

  /** Deleting line k takes exactly that line's cost off the total. */
  lemma LinesTotalRemove(lines: seq<CartItem>, k: nat, prices: map<ProductId, int>)
    requires PricedIn(lines, prices) && k < |lines|
    ensures PricedIn(lines[..k] + lines[k + 1..], prices)
    ensures LinesTotal(lines[..k] + lines[k + 1..], prices) == LinesTotal(lines, prices) - LineCost(lines[k], prices)
  {
    assert lines == lines[..k] + [lines[k]] + lines[k + 1..];
    assert LinesTotal([lines[k]], prices) == LineCost(lines[k], prices) by {
      assert [lines[k]][..0] == [];
    }
    LinesTotalAppend(lines[..k], [lines[k]], prices);
    LinesTotalAppend(lines[..k] + [lines[k]], lines[k + 1..], prices);
    LinesTotalAppend(lines[..k], lines[k + 1..], prices);
  }

  /** Replacing line k changes the total by the difference of the two lines' costs. */
  lemma LinesTotalReplace(lines: seq<CartItem>, k: nat, line: CartItem, prices: map<ProductId, int>)
    requires PricedIn(lines, prices) && k < |lines| && line.product in prices
    ensures PricedIn(lines[k := line], prices)
    ensures LinesTotal(lines[k := line], prices)
         == LinesTotal(lines, prices) - LineCost(lines[k], prices) + LineCost(line, prices)
  {
    var updated := lines[k := line];
    assert updated == lines[..k] + [line] + lines[k + 1..];
    assert LinesTotal([line], prices) == LineCost(line, prices) by {
      assert [line][..0] == [];
    }
    LinesTotalAppend(lines[..k], [line], prices);
    LinesTotalAppend(lines[..k] + [line], lines[k + 1..], prices);
    LinesTotalRemove(lines, k, prices);
    LinesTotalAppend(lines[..k], lines[k + 1..], prices);
  }

  /** Raising line k's quantity by `more` raises the total by `more` units of its price. */
  lemma LinesTotalRaise(lines: seq<CartItem>, k: nat, more: int, prices: map<ProductId, int>)
    requires PricedIn(lines, prices) && k < |lines| && lines[k].quantity + more >= 0
    ensures PricedIn(lines[k := lines[k].(quantity := lines[k].quantity + more)], prices)
    ensures LinesTotal(lines[k := lines[k].(quantity := lines[k].quantity + more)], prices)
         == LinesTotal(lines, prices) + prices[lines[k].product] * more
  {
    LinesTotalReplace(lines, k, lines[k].(quantity := lines[k].quantity + more), prices);
    RaiseCost(lines[k], more, prices);
  }

  /** A reordering of priced lines is priced. */
  lemma PricedInPermutation(a: seq<CartItem>, b: seq<CartItem>, prices: map<ProductId, int>)
    requires PricedIn(a, prices) && multiset(a) == multiset(b)
    ensures PricedIn(b, prices)
  {
    forall i | 0 <= i < |b|
      ensures b[i].product in prices
    {
      assert b[i] in multiset(a);
    }
  }

  lemma MultisetWithout(s: seq<CartItem>, j: nat)
    requires j < |s|
    ensures multiset(s[..j] + s[j + 1..]) == multiset(s) - multiset{s[j]}
  {
    assert s == s[..j] + [s[j]] + s[j + 1..];
  }

  /** The total does not depend on the order in which the lines are visited. */
  lemma {:induction false} LinesTotalPermutation(a: seq<CartItem>, b: seq<CartItem>, prices: map<ProductId, int>)
    requires PricedIn(a, prices) && multiset(a) == multiset(b)
    ensures PricedIn(b, prices)
    ensures LinesTotal(a, prices) == LinesTotal(b, prices)
    decreases |a|
  {
    PricedInPermutation(a, b, prices);
    if a == [] {
      assert |b| == |multiset(b)| == 0;
    } else {
      var n := |a| - 1;
      var x := a[n];
      assert x in multiset(b);
      var j :| 0 <= j < |b| && b[j] == x;
      var b' := b[..j] + b[j + 1..];
      MultisetWithout(a, n);
      MultisetWithout(b, j);
      assert a[..n] + a[n + 1..] == a[..n];
      LinesTotalRemove(b, j, prices);
      LinesTotalPermutation(a[..n], b', prices);
    }
  }

  /** The primary-key lookup `CartItem.objects.get(id=...)` within one cart's lines. */
  function IndexOfId(lines: seq<CartItem>, id: CartItemId): (r: Option<nat>)
    ensures r.Some? ==> r.value < |lines| && lines[r.value].id == id
    ensures r.Some? ==> forall i :: 0 <= i < r.value ==> lines[i].id != id
    ensures r.None? ==> forall i :: 0 <= i < |lines| ==> lines[i].id != id
  {
    if lines == [] then None
    else if lines[0].id == id then Some(0)
    else match IndexOfId(lines[1..], id)
      case Some(k) => Some(k + 1)
      case None => None
  }

  /** The (cart, product) lookup of `CartItem.objects.get_or_create`. */
  function IndexOfProduct(lines: seq<CartItem>, p: ProductId): (r: Option<nat>)
    ensures r.Some? ==> r.value < |lines| && lines[r.value].product == p
    ensures r.Some? ==> forall i :: 0 <= i < r.value ==> lines[i].product != p
    ensures r.None? ==> forall i :: 0 <= i < |lines| ==> lines[i].product != p
  {
    if lines == [] then None
    else if lines[0].product == p then Some(0)
    else match IndexOfProduct(lines[1..], p)
      case Some(k) => Some(k + 1)
      case None => None
  }

  /** No two rows of one cart share a key or a product (get_or_create never makes a second one). */
  predicate DistinctLines(lines: seq<CartItem>) {
    forall i, j :: 0 <= i < j < |lines| ==> lines[i].id != lines[j].id && lines[i].product != lines[j].product
  }

  /** Every key lies below the next key the CartItem table hands out. */
  predicate KeysBelow(lines: seq<CartItem>, bound: nat) {
    forall i :: 0 <= i < |lines| ==> lines[i].id < bound
  }

  /** A new row under the next key, for a product the cart does not hold yet. */
  lemma DistinctAppend(lines: seq<CartItem>, line: CartItem)
    requires DistinctLines(lines) && KeysBelow(lines, line.id) && IndexOfProduct(lines, line.product).None?
    ensures IndexOfId(lines, line.id).None?
    ensures DistinctLines(lines + [line]) && KeysBelow(lines + [line], line.id + 1)
  {
  }

  /** Changing the quantity of a row: its key finds it, and the rows stay distinct. */
  lemma DistinctRequantify(lines: seq<CartItem>, k: nat, q: nat, bound: nat)
    requires DistinctLines(lines) && KeysBelow(lines, bound) && k < |lines|
    ensures IndexOfId(lines, lines[k].id) == Some(k)
    ensures DistinctLines(lines[k := lines[k].(quantity := q)]) && KeysBelow(lines[k := lines[k].(quantity := q)], bound)
  {
  }

  /** Dropping a row keeps the rows distinct and below the bound. */
  lemma DistinctRemove(lines: seq<CartItem>, k: nat, bound: nat)
    requires DistinctLines(lines) && KeysBelow(lines, bound) && k < |lines|
    ensures DistinctLines(lines[..k] + lines[k + 1..]) && KeysBelow(lines[..k] + lines[k + 1..], bound)
  {
    var r := lines[..k] + lines[k + 1..];
    forall i | 0 <= i < |r|
      ensures r[i] == lines[if i < k then i else i + 1]
    {
    }
  }

  /** Saving a row: update it in place when its key is present, insert it otherwise. */
  function Upsert(lines: seq<CartItem>, line: CartItem): (r: seq<CartItem>)
    ensures IndexOfId(lines, line.id).Some? ==> |r| == |lines|
    ensures IndexOfId(lines, line.id).None? ==> |r| == |lines| + 1 && r[|lines|] == line
    ensures line in r
    ensures forall i :: 0 <= i < |lines| && lines[i].id != line.id ==> r[i] == lines[i]
  {
    match IndexOfId(lines, line.id)
    case Some(k) => assert lines[k := line][k] == line; lines[k := line]
    case None => lines + [line]
  }

  class Cart {
    const owner: UserId
    var totalAmount: int
    var items: seq<CartItem>

    /** `Cart.objects.create(user=...)`: no lines, total 0.00. */
    constructor (owner: UserId)
      ensures this.owner == owner && totalAmount == 0 && items == []
    {
      this.owner := owner;
      totalAmount := 0;
      items := [];
    }

    /** The stored total is the sum of the lines, and no two lines share a key or a product. */
    ghost predicate Valid(prices: map<ProductId, int>)
      reads this
    {
      PricedIn(items, prices) && DistinctLines(items) && totalAmount == LinesTotal(items, prices)
    }

    /** update_total: accumulate price * quantity over the lines, store and return it. */
    method UpdateTotal(catalog: Inventory) returns (total: int)
      requires PricedIn(items, Prices(catalog))
      modifies this
      ensures items == old(items)
      ensures total == totalAmount == LinesTotal(items, Prices(catalog))
    {
      total := 0;
      var i := 0;
      while i < |items|
        invariant 0 <= i <= |items|
        invariant total == LinesTotal(items[..i], Prices(catalog))
      {
        var item := items[i];
        total := total + catalog[item.product].price * item.quantity;
        i := i + 1;
        assert items[..i][..i - 1] == items[..i - 1];
      }
      assert items[..|items|] == items;
      totalAmount := total;
    }

    /** The CartItem.save override: write the row, then update_total. */
    method SaveItem(line: CartItem, catalog: Inventory)
      requires PricedIn(items, Prices(catalog)) && line.product in catalog
      modifies this
      ensures items == Upsert(old(items), line)
      ensures PricedIn(items, Prices(catalog)) && totalAmount == LinesTotal(items, Prices(catalog))
    {
      items := Upsert(items, line);
      var _ := UpdateTotal(catalog);
    }

    /**
     * The CartItem.delete override: drop the row, then update_total. The new total
     * is the old sum less the deleted line's cost.
     */
    method DeleteItem(id: CartItemId, catalog: Inventory)
      requires PricedIn(items, Prices(catalog)) && IndexOfId(items, id).Some?
      modifies this
      ensures var k := IndexOfId(old(items), id).value;
        items == old(items)[..k] + old(items)[k + 1..]
      ensures PricedIn(items, Prices(catalog)) && totalAmount == LinesTotal(items, Prices(catalog))
      ensures totalAmount == LinesTotal(old(items), Prices(catalog))
                             - LineCost(old(items)[IndexOfId(old(items), id).value], Prices(catalog))
    {
      var k := IndexOfId(items, id).value;
      LinesTotalRemove(items, k, Prices(catalog));
      items := items[..k] + items[k + 1..];
      var _ := UpdateTotal(catalog);
    }
  }
}
