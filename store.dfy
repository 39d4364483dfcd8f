/**
 * The database the views read and write, kept in memory: the product table,
 * one cart and one profile per user, and the order table. Keys are handed out by
 * counters, as the database's auto-increment columns do.
 */
module Shop {
  import opened Common
  import opened Catalog
  import opened Ledger
  import opened Carts
  import opened OrderModels

  class Store {
    var products: Inventory
    var carts: map<UserId, Cart>
    var profiles: map<UserId, UserProfile>
    var orders: map<OrderId, Order>
    var nextItemId: nat
    var nextOrderId: nat

    /**
     * Each cart and profile belongs to the user it is filed under (so no two users
     * share one), every cart's stored total is the sum of its lines at current
     * prices, and orders are filed under their own keys and refer to existing products.
     */
    ghost predicate Valid()
      reads this, carts.Values, profiles.Values
    {
      && (forall u :: u in carts ==> carts[u].owner == u && carts[u].Valid(Prices(products)))
      && (forall u :: u in carts ==> KeysBelow(carts[u].items, nextItemId))
      && (forall u :: u in profiles ==> profiles[u].user.id == u)
      && (forall id :: id in orders ==> orders[id].id == id && id < nextOrderId && ItemsIn(orders[id].items, products))
    }

    constructor (products: Inventory)
      ensures Valid()
      ensures this.products == products && carts == map[] && profiles == map[] && orders == map[]
    {
      this.products := products;
      carts := map[];
      profiles := map[];
      orders := map[];
      nextItemId := 1;
      nextOrderId := 1;
    }

    /** The objects a view acting for user u may change besides the store: u's cart and profile. */
    function CartOf(u: UserId): set<object>
      reads this
    {
      if u in carts then {carts[u]} else {}
    }

    function ProfileOf(u: UserId): set<object>
      reads this
    {
      if u in profiles then {profiles[u]} else {}
    }

    /** The lines of u's cart; a user without a cart has none. */
    function LinesOf(u: UserId): seq<CartItem>
      reads this, carts.Values
    {
      if u in carts then carts[u].items else []
    }

    /** The stored total of u's cart; 0 for a user without a cart. */
    function CartTotalOf(u: UserId): int
      reads this, carts.Values
    {
      if u in carts then carts[u].totalAmount else 0
    }

    /** The balance of u's profile; None for a user without a profile. */
    function BalanceOf(u: UserId): Option<int>
      reads this, profiles.Values
    {
      if u in profiles then profiles[u].balance else None
    }

    /**
     * The two post_save receivers on User: a user who has no profile yet gets one,
     * with balance 0.00, or None for a staff account. An existing profile is left as
     * it is, and from now on reads the user as saved.
     */
    method UserSaved(user: User)
      requires Valid()
      modifies this, ProfileOf(user.id)
      ensures Valid()
      ensures user.id in profiles && profiles[user.id].user == user
      ensures old(user.id in profiles) ==>
        && profiles == old(profiles)
        && profiles[user.id].balance == old(profiles[user.id].balance)
        && profiles[user.id].transactions == old(profiles[user.id].transactions)
      ensures old(user.id !in profiles) ==>
        && fresh(profiles[user.id]) && profiles == old(profiles)[user.id := profiles[user.id]]
        && profiles[user.id].transactions == []
        && profiles[user.id].balance == (if user.isStaff then None else Some(0))
      ensures products == old(products) && carts == old(carts) && orders == old(orders)
      ensures nextItemId == old(nextItemId) && nextOrderId == old(nextOrderId)
    {
      if user.id !in profiles {
        var profile := new UserProfile(user);
        profiles := profiles[user.id := profile];
      } else {
        profiles[user.id].user := user;
      }
    }

    /**
     * AdminRegisterSerializer.create: the user is created as a customer, which
     * creates a profile with balance 0.00, and is then made staff and saved again,
     * which leaves that profile alone. The admin ends up holding a balance of 0.00.
     */
    method RegisterAdmin(id: UserId)
      requires Valid() && id !in profiles
      modifies this
      ensures Valid()
      ensures id in profiles && fresh(profiles[id])
      ensures profiles[id].user == User(id, true) && profiles[id].balance == Some(0) && profiles[id].transactions == []
      ensures profiles == old(profiles)[id := profiles[id]]
      ensures products == old(products) && carts == old(carts) && orders == old(orders)
      ensures nextItemId == old(nextItemId) && nextOrderId == old(nextOrderId)
    {
      UserSaved(User(id, false));
      UserSaved(User(id, true));
    }
  }

  /**
   * The invariant survives a view that changes carts' lines only, leaving each cart
   * as it was or well formed with its keys below the counter.
   */
  twostate lemma CartChangeKeepsValid(s: Store)
    requires old(s.Valid())
    requires s.carts == old(s.carts) && s.profiles == old(s.profiles) && s.products == old(s.products)
    requires s.orders == old(s.orders) && s.nextOrderId == old(s.nextOrderId) && s.nextItemId >= old(s.nextItemId)
    requires forall u :: u in s.profiles ==> s.profiles[u].user == old(s.profiles[u].user)
    requires forall u :: u in s.carts ==>
      || (s.carts[u].items == old(s.carts[u].items) && s.carts[u].totalAmount == old(s.carts[u].totalAmount))
      || (s.carts[u].Valid(Prices(s.products)) && KeysBelow(s.carts[u].items, s.nextItemId))
    ensures s.Valid()
  {
    var prices := Prices(s.products);
    forall u | u in s.carts
      ensures s.carts[u].Valid(prices) && KeysBelow(s.carts[u].items, s.nextItemId)
    {
      assert old(s.carts[u].Valid(prices)) && old(KeysBelow(s.carts[u].items, s.nextItemId));
    }
  }

  /**
   * The invariant survives any view that leaves the carts and profiles filed as they
   * were and prices where they were, leaves every cart alone or empties it, and keeps
   * each order filed under its key, below the next key, and referring to existing
   * products.
   */
  twostate lemma StockMoveKeepsValid(s: Store)
    requires old(s.Valid())
    requires s.carts == old(s.carts) && s.profiles == old(s.profiles) && s.nextItemId == old(s.nextItemId)
    requires SamePrices(s.products, old(s.products))
    requires forall u :: u in s.profiles ==> s.profiles[u].user == old(s.profiles[u].user)
    requires forall u :: u in s.carts ==>
      || (s.carts[u].items == old(s.carts[u].items) && s.carts[u].totalAmount == old(s.carts[u].totalAmount))
      || (s.carts[u].items == [] && s.carts[u].totalAmount == 0)
    requires forall id :: id in s.orders ==>
      s.orders[id].id == id && id < s.nextOrderId && ItemsIn(s.orders[id].items, s.products)
    ensures s.Valid()
  {
    SamePriceList(s.products, old(s.products));
    var prices := Prices(s.products);
    forall u | u in s.carts
      ensures s.carts[u].Valid(prices) && KeysBelow(s.carts[u].items, s.nextItemId)
    {
      assert old(s.carts[u].Valid(prices)) && old(KeysBelow(s.carts[u].items, s.nextItemId));
    }
  }
}
