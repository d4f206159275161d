/**
 * Checkout and the order lifecycle. Checkout turns the user's cart into one
 * PENDING order priced at the products' current prices, with a flat shipping
 * rule and a sequential `ORD-` id, and empties the cart in the same step.
 * Customers may cancel their own pending orders; administrators may set any
 * status and record tracking data.
 */
module Orders {
  import opened Common
  import opened Store
  import ShoppingCart

  /* ---------------------------------------------------------------------- */
  /* Shipping and order numbers                                             */
  /* ---------------------------------------------------------------------- */

  /** Free shipping from 50 on, a flat 5 below. */
  function ShippingCost(subtotal: int): (cost: int)
    ensures cost == 0 <==> subtotal >= 50
    ensures cost == 5 <==> subtotal < 50
  {
    if subtotal >= 50 then 0 else 5
  }

  /** The order total never falls below the subtotal nor exceeds it by more than the flat rate. */
  lemma TotalBounds(subtotal: int)
    ensures subtotal <= subtotal + ShippingCost(subtotal) <= subtotal + 5
    ensures subtotal >= 50 ==> subtotal + ShippingCost(subtotal) == subtotal
  {
  }

  /** The total is not monotone in the subtotal: a cart worth 49 costs more than one worth 50. */
  lemma TotalNotMonotone()
    ensures 49 + ShippingCost(49) > 50 + ShippingCost(50)
  {
  }

  /** `ORD-` followed by count + 1, zero-padded to at least three digits. */
  function OrderNumber(count: nat): string
  {
    "ORD-" + PadStart(NatToString(count + 1), 3)
  }

  /** The digits after `ORD-` read back as count + 1. */
  lemma OrderNumberReadsBack(count: nat)
    ensures |OrderNumber(count)| >= 7 && OrderNumber(count)[..4] == "ORD-"
    ensures AllDigits(OrderNumber(count)[4..]) && ParseNat(OrderNumber(count)[4..]) == count + 1
  {
    PaddedNumberRoundTrip(count + 1, 3);
    assert OrderNumber(count)[4..] == PadStart(NatToString(count + 1), 3);
  }

  /** Different order counts give different order ids. */
  lemma OrderNumberInjective(m: nat, n: nat)
    requires OrderNumber(m) == OrderNumber(n)
    ensures m == n
  {
    OrderNumberReadsBack(m);
    OrderNumberReadsBack(n);
  }

  /** With six orders stored, the next one is ORD-007. */
  lemma SeventhOrderNumber()
    ensures OrderNumber(6) == "ORD-007"
  {
    assert NatToString(7) == "7";
  }

  /* ---------------------------------------------------------------------- */
  /* Pricing the cart                                                       */
  /* ---------------------------------------------------------------------- */

  /** What a cart item costs at its product's current price (0 for a dangling item). */
  function ChargeOf(items: map<Id, CartItem>, products: map<Id, Product>): Id -> int
  {
    (id: Id) =>
      if id in items && items[id].productId in products
      then products[items[id].productId].price * items[id].quantity
      else 0
  }

  /** The order subtotal of a listing of cart items. */
  function Subtotal(ids: seq<Id>, items: map<Id, CartItem>, products: map<Id, Product>): int
  {
    SumBy(ids, ChargeOf(items, products))
  }

  /** Every listed item exists and refers to an existing product. */
  predicate Resolved(ids: seq<Id>, items: map<Id, CartItem>, products: map<Id, Product>)
  {
    forall k :: 0 <= k < |ids| ==> ids[k] in items && items[ids[k]].productId in products
  }

  /** An order item before the cart snapshot is attached: product, quantity, price at order time. */
  datatype PricedItem = PricedItem(productId: Id, quantity: int, price: int)

  /** The priced items of a listing, one per cart item, in listing order. */
  function PricedItems(ids: seq<Id>, items: map<Id, CartItem>, products: map<Id, Product>): (r: seq<PricedItem>)
    requires Resolved(ids, items, products)
    ensures |r| == |ids|
    ensures forall k :: 0 <= k < |ids| ==>
      r[k].productId == items[ids[k]].productId && r[k].quantity == items[ids[k]].quantity
      && r[k].price == products[items[ids[k]].productId].price
  {
    seq(|ids|, k requires 0 <= k < |ids| =>
      PricedItem(items[ids[k]].productId, items[ids[k]].quantity, products[items[ids[k]].productId].price))
  }

  /** Some listed item's product is out of stock. */
  predicate AnyOutOfStock(ids: seq<Id>, items: map<Id, CartItem>, products: map<Id, Product>)
    requires Resolved(ids, items, products)
  {
    exists k :: 0 <= k < |ids| && !products[items[ids[k]].productId].inStock
  }

  /**
   * The checkout loop: stops at the first out-of-stock product, otherwise
   * accumulates the subtotal and the priced items.
   */
  method PriceCart(ids: seq<Id>, items: map<Id, CartItem>, products: map<Id, Product>)
    returns (r: Option<(int, seq<PricedItem>)>)
    requires Resolved(ids, items, products)
    ensures r.None? <==> AnyOutOfStock(ids, items, products)
    ensures r.Some? ==> r.value.0 == Subtotal(ids, items, products)
                        && r.value.1 == PricedItems(ids, items, products)
  {
    var subtotal := 0;
    var priced := [];
    var n := 0;
    while n < |ids|
      invariant 0 <= n <= |ids|
      invariant forall k :: 0 <= k < n ==> products[items[ids[k]].productId].inStock
      invariant subtotal == Subtotal(ids[..n], items, products)
      invariant priced == PricedItems(ids[..n], items, products)
    {
      var item := items[ids[n]];
      var product := products[item.productId];
      if !product.inStock {
        return None;
      }
      assert ids[..n + 1] == ids[..n] + [ids[n]];
      SumByAppend(ids[..n], [ids[n]], ChargeOf(items, products));
      subtotal := subtotal + product.price * item.quantity;
      priced := priced + [PricedItem(item.productId, item.quantity, product.price)];
      n := n + 1;
    }
    assert ids[..n] == ids;
    r := Some((subtotal, priced));
  }

  /** `cart.items.find(ci => ci.productId === productId)`: the position of the first listed item of the product. */
  function FirstWithProduct(ids: seq<Id>, items: map<Id, CartItem>, productId: Id): (k: nat)
    requires forall j :: 0 <= j < |ids| ==> ids[j] in items
    requires exists j :: 0 <= j < |ids| && items[ids[j]].productId == productId
    ensures k < |ids| && items[ids[k]].productId == productId
    ensures forall j :: 0 <= j < k ==> items[ids[j]].productId != productId
    decreases |ids|
  {
    if items[ids[0]].productId == productId then 0
    else
      var j :| 0 <= j < |ids| && items[ids[j]].productId == productId;
      assert ids[1..][j - 1] == ids[j];
      1 + FirstWithProduct(ids[1..], items, productId)
  }

  /** In a cart with one line per product, `find` by product gives back the item itself. */
  lemma FindGivesTheItem(ids: seq<Id>, items: map<Id, CartItem>, cartId: Id, k: int)
    requires ShoppingCart.UniqueLines(items)
    requires forall j :: 0 <= j < |ids| ==> ids[j] in items && items[ids[j]].cartId == cartId
    requires 0 <= k < |ids|
    ensures items[ids[FirstWithProduct(ids, items, items[ids[k]].productId)]] == items[ids[k]]
  {
    var f := FirstWithProduct(ids, items, items[ids[k]].productId);
    assert items[ids[f]].cartId == items[ids[k]].cartId;
  }

  /* ---------------------------------------------------------------------- */
  /* Checkout                                                               */
  /* ---------------------------------------------------------------------- */

  function Snapshot(a: Address): AddressSnapshot
  {
    AddressSnapshot(a.street, a.city, a.postalCode, a.country)
  }

  /** The order items: the priced items with name and image copied from the cart item `find` picks. */
  function OrderItems(priced: seq<PricedItem>, ids: seq<Id>, items: map<Id, CartItem>): seq<OrderItem>
    requires |priced| == |ids|
    requires forall k :: 0 <= k < |ids| ==> ids[k] in items && items[ids[k]].productId == priced[k].productId
  {
    seq(|priced|, k requires 0 <= k < |priced| =>
      var line := items[ids[FirstWithProduct(ids, items, priced[k].productId)]];
      OrderItem(priced[k].productId, line.name, priced[k].price, priced[k].quantity, line.image))
  }

  /** The order row checkout creates from the loop's subtotal and priced items. */
  function NewOrder(userId: Id, profile: Profile, email: string, shipping: Address, billing: Address,
                    subtotal: int, orderItems: seq<OrderItem>): Order
  {
    var shippingCost := ShippingCost(subtotal);
    Order(userId, OrderStatus.PENDING, PaymentStatus.PENDING,
          profile.customerType, profile.firstName, profile.lastName, email,
          if profile.phone.Some? then profile.phone.value else "", profile.taxId,
          subtotal, shippingCost, subtotal + shippingCost,
          Snapshot(shipping), Snapshot(billing), orderItems,
          None, None, None, None, None, None)
  }

  /** The order placed for a listing of the cart's items. */
  function PlacedOrder(userId: Id, profile: Profile, email: string, shipping: Address, billing: Address,
                       ids: seq<Id>, items: map<Id, CartItem>, products: map<Id, Product>): Order
    requires Resolved(ids, items, products)
  {
    NewOrder(userId, profile, email, shipping, billing, Subtotal(ids, items, products),
             OrderItems(PricedItems(ids, items, products), ids, items))
  }

  /**
   * A placed order is PENDING and unpaid, has one item per cart item with the
   * product's current price and the cart item's name and image, and totals the
   * subtotal plus the shipping rule.
   */
  lemma PlacedOrderContents(userId: Id, profile: Profile, email: string, shipping: Address, billing: Address,
                            ids: seq<Id>, items: map<Id, CartItem>, products: map<Id, Product>, cartId: Id)
    requires Resolved(ids, items, products)
    requires ShoppingCart.UniqueLines(items)
    requires forall j :: 0 <= j < |ids| ==> items[ids[j]].cartId == cartId
    ensures var o := PlacedOrder(userId, profile, email, shipping, billing, ids, items, products);
      && o.userId == userId && o.status == OrderStatus.PENDING && o.paymentStatus == PaymentStatus.PENDING
      && o.subtotal == Subtotal(ids, items, products)
      && o.shippingCost == (if o.subtotal >= 50 then 0 else 5)
      && o.total == o.subtotal + o.shippingCost
      && o.shipping == Snapshot(shipping) && o.billing == Snapshot(billing)
      && |o.items| == |ids|
      && (forall k :: 0 <= k < |ids| ==>
            var c := items[ids[k]];
            o.items[k] == OrderItem(c.productId, c.name, products[c.productId].price, c.quantity, c.image))
      && o.webpayToken.None? && o.shippedAt.None?
  {
    var o := PlacedOrder(userId, profile, email, shipping, billing, ids, items, products);
    forall k | 0 <= k < |ids|
      ensures var c := items[ids[k]];
              o.items[k] == OrderItem(c.productId, c.name, products[c.productId].price, c.quantity, c.image)
    {
      FindGivesTheItem(ids, items, cartId, k);
    }
  }

  /** The id that applies to billing: the shipping address unless a different one is given. */
  function BillingId(shippingId: Id, billingId: Id): (r: Id)
    ensures billingId != "" ==> r == billingId
    ensures billingId == "" ==> r == shippingId
  {
    if billingId != "" && billingId != shippingId then billingId else shippingId
  }

  /** Both addresses checkout needs are given and belong to the user. */
  predicate AddressesFound(profiles: map<Id, Profile>, addresses: map<Id, Address>, userId: Id,
                           shippingId: Id, billingId: Id)
  {
    && shippingId != ""
    && OwnedAddress(profiles, addresses, userId, shippingId).Some?
    && OwnedAddress(profiles, addresses, userId, BillingId(shippingId, billingId)).Some?
  }

  /** The ids of the items in the user's cart (none when the user has no cart). */
  function CartItemIds(carts: map<Id, Cart>, items: map<Id, CartItem>, userId: Id): set<Id>
  {
    if userId in carts then set i | i in items && items[i].cartId == carts[userId].id else {}
  }

  /** A duplicate-free listing of exactly the given rows. */
  ghost predicate Lists(ids: seq<Id>, rows: set<Id>)
  {
    Distinct(ids) && forall i :: i in ids <==> i in rows
  }

  /** Some item of the user's cart has a product that is out of stock. */
  predicate CartHasOutOfStock(carts: map<Id, Cart>, items: map<Id, CartItem>, products: map<Id, Product>, userId: Id)
    requires forall i :: i in items ==> items[i].productId in products
  {
    exists i :: i in CartItemIds(carts, items, userId) && !products[items[i].productId].inStock
  }

  /**
   * The part of checkout after the addresses are found: list the cart, price
   * it, number the order, then create it and empty the cart in one step. The
   * ghost `listing` is the order in which the cart's items were read; the
   * order's items follow it.
   */
  method PlaceOrder(db: Db, userId: Id, shipping: Address, billing: Address)
    returns (r: Response<Id>, ghost listing: seq<Id>)
    requires forall i :: i in db.cartItems ==> db.cartItems[i].productId in db.products
    requires userId in db.profiles && userId in db.users
    modifies db`orders, db`cartItems
    ensures CartItemIds(db.carts, old(db.cartItems), userId) == {} ==>
      r == Fail(400, "EMPTY_CART") && db.orders == old(db.orders) && db.cartItems == old(db.cartItems)
    ensures CartItemIds(db.carts, old(db.cartItems), userId) != {}
            && CartHasOutOfStock(db.carts, old(db.cartItems), db.products, userId) ==>
      r == Fail(400, "OUT_OF_STOCK") && db.orders == old(db.orders) && db.cartItems == old(db.cartItems)
    ensures CartItemIds(db.carts, old(db.cartItems), userId) != {}
            && !CartHasOutOfStock(db.carts, old(db.cartItems), db.products, userId)
            && OrderNumber(|old(db.orders)|) in old(db.orders) ==>
      r == Fail(500, "CHECKOUT_ERROR") && db.orders == old(db.orders) && db.cartItems == old(db.cartItems)
    ensures CartItemIds(db.carts, old(db.cartItems), userId) != {}
            && !CartHasOutOfStock(db.carts, old(db.cartItems), db.products, userId)
            && OrderNumber(|old(db.orders)|) !in old(db.orders) ==>
      && r == Ok(OrderNumber(|old(db.orders)|))
      && db.cartItems == ShoppingCart.WithoutCart(old(db.cartItems), db.carts[userId].id)
      && Lists(listing, CartItemIds(db.carts, old(db.cartItems), userId))
      && Resolved(listing, old(db.cartItems), db.products)
      && db.orders == old(db.orders)[r.value := PlacedOrder(
           userId, db.profiles[userId], db.users[userId].email, shipping, billing,
           listing, old(db.cartItems), db.products)]
  {
    var items := db.cartItems;
    var ids := CartListing(db.carts, items, userId);
    listing := ids;
    if ids == [] {
      return Fail(400, "EMPTY_CART"), listing;
    }
    OutOfStockInListing(ids, db.carts, items, db.products, userId);
    var priced := PriceCart(ids, items, db.products);
    if priced.None? {
      return Fail(400, "OUT_OF_STOCK"), listing;
    }
    var orderId := OrderNumber(|db.orders|);
    if orderId in db.orders {
      return Fail(500, "CHECKOUT_ERROR"), listing;
    }
    var order := NewOrder(userId, db.profiles[userId], db.users[userId].email, shipping, billing,
                          priced.value.0, OrderItems(priced.value.1, ids, items));
    db.orders := db.orders[orderId := order];
    db.cartItems := ShoppingCart.WithoutCart(items, db.carts[userId].id);
    r := Ok(orderId);
  }

  /**
   * checkout: both addresses must belong to the user, then the cart is turned
   * into an order.
   */
  method Checkout(db: Db, userId: Id, shippingAddressId: Id, billingAddressId: Id)
    returns (r: Response<Id>, ghost listing: seq<Id>)
    requires forall i :: i in db.cartItems ==> db.cartItems[i].productId in db.products
    requires forall u :: u in db.profiles ==> u in db.users
    modifies db`orders, db`cartItems
    ensures shippingAddressId == "" ==>
      r == Fail(400, "MISSING_ADDRESS") && db.orders == old(db.orders) && db.cartItems == old(db.cartItems)
    ensures shippingAddressId != "" && !AddressesFound(db.profiles, db.addresses, userId, shippingAddressId, billingAddressId) ==>
      r == Fail(404, "ADDRESS_NOT_FOUND") && db.orders == old(db.orders) && db.cartItems == old(db.cartItems)
    ensures AddressesFound(db.profiles, db.addresses, userId, shippingAddressId, billingAddressId)
            && CartItemIds(db.carts, old(db.cartItems), userId) == {} ==>
      r == Fail(400, "EMPTY_CART") && db.orders == old(db.orders) && db.cartItems == old(db.cartItems)
    ensures AddressesFound(db.profiles, db.addresses, userId, shippingAddressId, billingAddressId)
            && CartItemIds(db.carts, old(db.cartItems), userId) != {}
            && CartHasOutOfStock(db.carts, old(db.cartItems), db.products, userId) ==>
      r == Fail(400, "OUT_OF_STOCK") && db.orders == old(db.orders) && db.cartItems == old(db.cartItems)
    ensures AddressesFound(db.profiles, db.addresses, userId, shippingAddressId, billingAddressId)
            && CartItemIds(db.carts, old(db.cartItems), userId) != {}
            && !CartHasOutOfStock(db.carts, old(db.cartItems), db.products, userId)
            && OrderNumber(|old(db.orders)|) in old(db.orders) ==>
      r == Fail(500, "CHECKOUT_ERROR") && db.orders == old(db.orders) && db.cartItems == old(db.cartItems)
    ensures AddressesFound(db.profiles, db.addresses, userId, shippingAddressId, billingAddressId)
            && CartItemIds(db.carts, old(db.cartItems), userId) != {}
            && !CartHasOutOfStock(db.carts, old(db.cartItems), db.products, userId)
            && OrderNumber(|old(db.orders)|) !in old(db.orders) ==>
      && r == Ok(OrderNumber(|old(db.orders)|))
      && db.cartItems == ShoppingCart.WithoutCart(old(db.cartItems), db.carts[userId].id)
      && Lists(listing, CartItemIds(db.carts, old(db.cartItems), userId))
      && Resolved(listing, old(db.cartItems), db.products)
      && db.orders == old(db.orders)[r.value := PlacedOrder(
           userId, db.profiles[userId], db.users[userId].email,
           db.addresses[shippingAddressId], db.addresses[BillingId(shippingAddressId, billingAddressId)],
           listing, old(db.cartItems), db.products)]
  {
    listing := [];
    if shippingAddressId == "" {
      return Fail(400, "MISSING_ADDRESS"), listing;
    }
    var shipping := OwnedAddress(db.profiles, db.addresses, userId, shippingAddressId);
    if shipping.None? {
      return Fail(404, "ADDRESS_NOT_FOUND"), listing;
    }
    var billing := shipping;
    if billingAddressId != "" && billingAddressId != shippingAddressId {
      billing := OwnedAddress(db.profiles, db.addresses, userId, billingAddressId);
      if billing.None? {
        return Fail(404, "ADDRESS_NOT_FOUND"), listing;
      }
    }
    assert billing.value == db.addresses[BillingId(shippingAddressId, billingAddressId)];
    // The shipping address was found through the user's profile, so the profile exists.
    assert userId in db.profiles;
    r, listing := PlaceOrder(db, userId, shipping.value, billing.value);
  }

  /** `findFirst({ where: { userId }, include: { items } })`: the user's cart items, listed in some order. */
  method CartListing(carts: map<Id, Cart>, items: map<Id, CartItem>, userId: Id) returns (ids: seq<Id>)
    ensures Lists(ids, CartItemIds(carts, items, userId))
    ensures ids == [] <==> CartItemIds(carts, items, userId) == {}
    ensures ids != [] ==> userId in carts
    ensures forall k :: 0 <= k < |ids| ==> ids[k] in items && items[ids[k]].cartId == carts[userId].id
  {
    if userId !in carts {
      return [];
    }
    ids := Enumerate(set i | i in items && items[i].cartId == carts[userId].id);
    forall k | 0 <= k < |ids|
      ensures ids[k] in items && items[ids[k]].cartId == carts[userId].id
    {
      assert ids[k] in ids;
    }
    if ids != [] {
      assert ids[0] in CartItemIds(carts, items, userId);
    }
  }

  /** For a listing of the cart, the loop's out-of-stock test is the cart-wide one. */
  lemma OutOfStockInListing(ids: seq<Id>, carts: map<Id, Cart>, items: map<Id, CartItem>,
                            products: map<Id, Product>, userId: Id)
    requires Lists(ids, CartItemIds(carts, items, userId))
    requires forall i :: i in items ==> items[i].productId in products
    requires forall k :: 0 <= k < |ids| ==> ids[k] in items
    ensures Resolved(ids, items, products)
    ensures AnyOutOfStock(ids, items, products) <==> CartHasOutOfStock(carts, items, products, userId)
  {
    if CartHasOutOfStock(carts, items, products, userId) {
      var i :| i in CartItemIds(carts, items, userId) && !products[items[i].productId].inStock;
      assert i in ids;
      var k :| 0 <= k < |ids| && ids[k] == i;
    }
    if AnyOutOfStock(ids, items, products) {
      var k :| 0 <= k < |ids| && !products[items[ids[k]].productId].inStock;
      assert ids[k] in ids;
    }
  }

  /**
   * The amount the cart view shows is the subtotal checkout charges for the
   * same cart, whichever order the two queries list the items in.
   */
  lemma CartTotalIsCheckoutSubtotal(ids: seq<Id>, lines: seq<ShoppingCart.CartLine>,
                                    translations: map<(Id, string), Translation>,
                                    items: map<Id, CartItem>, products: map<Id, Product>,
                                    cartId: Id, language: string)
    requires Lists(ids, set i | i in items && items[i].cartId == cartId)
    requires forall i :: i in items ==> items[i].productId in products
    requires forall i :: (i in items && items[i].cartId == cartId)
                         <==> exists k :: 0 <= k < |lines| && lines[k].itemId == i
    requires forall k :: 0 <= k < |lines| ==>
      lines[k].itemId in items
      && lines[k] == ShoppingCart.ViewLine(translations, products, items, lines[k].itemId, language)
    requires forall j, k :: 0 <= j < k < |lines| ==> lines[j].itemId != lines[k].itemId
    ensures ShoppingCart.TotalAmount(lines) == Subtotal(ids, items, products)
  {
    var lineIds := seq(|lines|, k requires 0 <= k < |lines| => lines[k].itemId);
    SumByPointwise(lines, ShoppingCart.LineAmount, lineIds, ChargeOf(items, products));
    forall i
      ensures i in lineIds <==> i in ids
    {
      if i in lineIds {
        var k :| 0 <= k < |lineIds| && lineIds[k] == i;
        assert lines[k].itemId == i;
      }
      if i in ids {
        var k :| 0 <= k < |lines| && lines[k].itemId == i;
        assert lineIds[k] == i;
      }
    }
    DistinctListingsArePermutations(lineIds, ids);
    SumByPermutation(lineIds, ids, ChargeOf(items, products));
  }

  /* ---------------------------------------------------------------------- */
  /* Lifecycle                                                              */
  /* ---------------------------------------------------------------------- */

  /** The order exists and belongs to the user (`findFirst({ id, userId })`). */
  predicate OwnsOrder(orders: map<Id, Order>, userId: Id, orderId: Id)
  {
    orderId in orders && orders[orderId].userId == userId
  }

  method CancelOrder(db: Db, userId: Id, orderId: Id) returns (r: Response<()>)
    modifies db`orders
    ensures !OwnsOrder(old(db.orders), userId, orderId) ==>
      r == Fail(404, "ORDER_NOT_FOUND") && db.orders == old(db.orders)
    ensures OwnsOrder(old(db.orders), userId, orderId) && old(db.orders)[orderId].status != OrderStatus.PENDING ==>
      r == Fail(400, "INVALID_ORDER_STATUS") && db.orders == old(db.orders)
    ensures OwnsOrder(old(db.orders), userId, orderId) && old(db.orders)[orderId].status == OrderStatus.PENDING ==>
      r == Ok(()) && db.orders == old(db.orders)[orderId := old(db.orders)[orderId].(status := OrderStatus.CANCELLED)]
  {
    if !(orderId in db.orders && db.orders[orderId].userId == userId) {
      return Fail(404, "ORDER_NOT_FOUND");
    }
    if db.orders[orderId].status != OrderStatus.PENDING {
      return Fail(400, "INVALID_ORDER_STATUS");
    }
    db.orders := db.orders[orderId := db.orders[orderId].(status := OrderStatus.CANCELLED)];
    r := Ok(());
  }

  function StatusName(s: OrderStatus): string
  {
    match s
    case PENDING => "PENDING"
    case PROCESSING => "PROCESSING"
    case SHIPPED => "SHIPPED"
    case DELIVERED => "DELIVERED"
    case CANCELLED => "CANCELLED"
  }

  /** `validStatuses.includes(status)`: exactly the five status names are accepted. */
  function ParseOrderStatus(s: string): (r: Option<OrderStatus>)
    ensures r.Some? ==> StatusName(r.value) == s
    ensures (exists t :: StatusName(t) == s) ==> r.Some?
  {
    if s == "PENDING" then Some(OrderStatus.PENDING)
    else if s == "PROCESSING" then Some(OrderStatus.PROCESSING)
    else if s == "SHIPPED" then Some(OrderStatus.SHIPPED)
    else if s == "DELIVERED" then Some(OrderStatus.DELIVERED)
    else if s == "CANCELLED" then Some(OrderStatus.CANCELLED)
    else None
  }

  /** Every status name parses back to its status. */
  lemma StatusNameRoundTrip(t: OrderStatus)
    ensures ParseOrderStatus(StatusName(t)) == Some(t)
  {
  }

  method UpdateOrderStatus(db: Db, orderId: Id, status: string) returns (r: Response<OrderStatus>)
    modifies db`orders
    ensures ParseOrderStatus(status).None? ==>
      r == Fail(400, "INVALID_STATUS") && db.orders == old(db.orders)
    ensures ParseOrderStatus(status).Some? && orderId !in old(db.orders) ==>
      r == Fail(404, "ORDER_NOT_FOUND") && db.orders == old(db.orders)
    ensures ParseOrderStatus(status).Some? && orderId in old(db.orders) ==>
      var t := ParseOrderStatus(status).value;
      r == Ok(t) && db.orders == old(db.orders)[orderId := old(db.orders)[orderId].(status := t)]
  {
    var t := ParseOrderStatus(status);
    if t.None? {
      return Fail(400, "INVALID_STATUS");
    }
    if orderId !in db.orders {
      return Fail(404, "ORDER_NOT_FOUND");
    }
    db.orders := db.orders[orderId := db.orders[orderId].(status := t.value)];
    r := Ok(t.value);
  }

  /**
   * The order after updateOrderTracking: supplied fields are set; a non-empty
   * tracking number on an order not yet shipped also stamps shippedAt and
   * moves it to SHIPPED.
   */
  function Tracked(o: Order, trackingNumber: Option<string>, carrier: Option<string>,
                   adminNotes: Option<string>, now: Time): (t: Order)
    ensures t.trackingNumber == (if trackingNumber.Some? then trackingNumber else o.trackingNumber)
    ensures t.carrier == (if carrier.Some? then carrier else o.carrier)
    ensures t.adminNotes == (if adminNotes.Some? then adminNotes else o.adminNotes)
    ensures trackingNumber.Some? && trackingNumber.value != "" && o.shippedAt.None? ==>
      t.shippedAt == Some(now) && t.status == OrderStatus.SHIPPED
    ensures !(trackingNumber.Some? && trackingNumber.value != "" && o.shippedAt.None?) ==>
      t.shippedAt == o.shippedAt && t.status == o.status
    ensures t == o.(trackingNumber := t.trackingNumber, carrier := t.carrier, adminNotes := t.adminNotes,
                    shippedAt := t.shippedAt, status := t.status)
  {
    var o1 := o.(trackingNumber := if trackingNumber.Some? then trackingNumber else o.trackingNumber,
                 carrier := if carrier.Some? then carrier else o.carrier,
                 adminNotes := if adminNotes.Some? then adminNotes else o.adminNotes);
    if trackingNumber.Some? && trackingNumber.value != "" && o.shippedAt.None?
    then o1.(shippedAt := Some(now), status := OrderStatus.SHIPPED)
    else o1
  }

  /** Repeating a tracking update changes nothing more: shippedAt keeps the first stamp. */
  lemma TrackingIdempotent(o: Order, trackingNumber: Option<string>, carrier: Option<string>,
                           adminNotes: Option<string>, t1: Time, t2: Time)
    ensures Tracked(Tracked(o, trackingNumber, carrier, adminNotes, t1), trackingNumber, carrier, adminNotes, t2)
            == Tracked(o, trackingNumber, carrier, adminNotes, t1)
  {
  }

  /** Once shipped, later tracking updates never move shippedAt or the status. */
  lemma ShippedAtStampedOnce(o: Order, trackingNumber: Option<string>, carrier: Option<string>,
                             adminNotes: Option<string>, now: Time)
    requires o.shippedAt.Some?
    ensures Tracked(o, trackingNumber, carrier, adminNotes, now).shippedAt == o.shippedAt
    ensures Tracked(o, trackingNumber, carrier, adminNotes, now).status == o.status
  {
  }

  method UpdateOrderTracking(db: Db, orderId: Id, trackingNumber: Option<string>, carrier: Option<string>,
                             adminNotes: Option<string>, now: Time) returns (r: Response<Order>)
    modifies db`orders
    ensures orderId !in old(db.orders) ==> r == Fail(404, "ORDER_NOT_FOUND") && db.orders == old(db.orders)
    ensures orderId in old(db.orders) ==>
      var t := Tracked(old(db.orders)[orderId], trackingNumber, carrier, adminNotes, now);
      r == Ok(t) && db.orders == old(db.orders)[orderId := t]
  {
    if orderId !in db.orders {
      return Fail(404, "ORDER_NOT_FOUND");
    }
    var order := db.orders[orderId];
    if trackingNumber.Some? {
      order := order.(trackingNumber := trackingNumber);
    }
    if carrier.Some? {
      order := order.(carrier := carrier);
    }
    if adminNotes.Some? {
      order := order.(adminNotes := adminNotes);
    }
    if trackingNumber.Some? && trackingNumber.value != "" && db.orders[orderId].shippedAt.None? {
      order := order.(shippedAt := Some(now), status := OrderStatus.SHIPPED);
    }
    db.orders := db.orders[orderId := order];
    r := Ok(order);
  }

  /* ---------------------------------------------------------------------- */
  /* The user's order list                                                  */
  /* ---------------------------------------------------------------------- */

  /** The user's orders, filtered by the upper-cased status when one is given. */
  function MatchingOrders(orders: map<Id, Order>, userId: Id, status: string): set<Id>
  {
    set id | id in orders && orders[id].userId == userId
             && (status == "" || StatusName(orders[id].status) == Upper(status))
  }

  /**
   * The pagination of getUserOrders over the matching orders; page defaults
   * to 1 and limit to 10, and any page and limit the query parses to is served.
   * A status that upper-cases to no order status is refused by the enum column
   * and answered by the handler's 500.
   */
  function UserOrdersPage(orders: map<Id, Order>, userId: Id, status: string, page: Option<int>, limit: Option<int>)
    : (r: Response<Pagination>)
    ensures r.Fail? <==> status != "" && ParseOrderStatus(Upper(status)).None?
    ensures r.Fail? ==> r == Fail(500, "ORDERS_FETCH_ERROR")
    ensures r.Ok? ==>
      var pg := Get(page, 1);
      var l := Get(limit, 10);
      var n := |MatchingOrders(orders, userId, status)|;
      && r.value.skip == (pg - 1) * l
      && (l > 0 ==> (r.value.hasMore <==> pg * l < n))
      && (l == 0 ==> (r.value.hasMore <==> n > 0))
      && (l < 0 ==> (r.value.hasMore <==> pg * l > n))
  {
    if status != "" && ParseOrderStatus(Upper(status)).None? then Fail(500, "ORDERS_FETCH_ERROR")
    else
      var pg := Get(page, 1);
      var l := Get(limit, 10);
      PaginateHasMore(pg, l, |MatchingOrders(orders, userId, status)|);
      Ok(Paginate(pg, l, |MatchingOrders(orders, userId, status)|))
  }

  /** A status in any letter case that names an order status is served; any other text is refused. */
  lemma StatusFilterNeedsKnownStatus(orders: map<Id, Order>, userId: Id)
    ensures UserOrdersPage(orders, userId, "shipped", None, None).Ok?
    ensures UserOrdersPage(orders, userId, "foo", None, None) == Fail(500, "ORDERS_FETCH_ERROR")
  {
    assert Upper("shipped") == "SHIPPED";
    assert Upper("foo") == "FOO";
  }

  /** With the defaults, a second page exists exactly when the user has more than ten orders. */
  lemma DefaultOrdersPageHasMore(orders: map<Id, Order>, userId: Id)
    ensures UserOrdersPage(orders, userId, "", None, None).Ok?
    ensures UserOrdersPage(orders, userId, "", None, None).value.hasMore
            <==> |set id | id in orders && orders[id].userId == userId| > 10
    ensures UserOrdersPage(orders, userId, "", None, None).value.skip == 0
  {
    assert MatchingOrders(orders, userId, "") == set id | id in orders && orders[id].userId == userId;
  }
}
