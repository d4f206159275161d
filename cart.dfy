/**
 * The shopping cart: one cart per user, created lazily, holding at most one
 * line per product. Adding a product already in the cart merges into its line;
 * a new line snapshots the product's Spanish name, price and image.
 */
module ShoppingCart {
  import opened Common
  import opened Store
  import Products

  /* ---------------------------------------------------------------------- */
  /* The line invariant                                                     */
  /* ---------------------------------------------------------------------- */

  predicate IsLine(items: map<Id, CartItem>, itemId: Id, cartId: Id, productId: Id)
  {
    itemId in items && items[itemId].cartId == cartId && items[itemId].productId == productId
  }

  /** At most one line per (cart, product). */
  ghost predicate UniqueLines(items: map<Id, CartItem>)
  {
    forall i, j :: (i in items && j in items && items[i].cartId == items[j].cartId
                    && items[i].productId == items[j].productId) ==> i == j
  }

  /** Every user's cart has an id of its own. */
  ghost predicate DistinctCarts(carts: map<Id, Cart>)
  {
    forall u, v :: u in carts && v in carts && carts[u].id == carts[v].id ==> u == v
  }

  /** The line of the product in the cart, if any. */
  ghost function FindLine(items: map<Id, CartItem>, cartId: Id, productId: Id): (r: Option<Id>)
    ensures r.Some? ==> IsLine(items, r.value, cartId, productId)
    ensures r.None? ==> forall i :: !IsLine(items, i, cartId, productId)
  {
    if exists i :: IsLine(items, i, cartId, productId)
    then var i :| IsLine(items, i, cartId, productId); Some(i)
    else None
  }

  /** How many units of the product the cart holds. */
  ghost function QuantityIn(items: map<Id, CartItem>, cartId: Id, productId: Id): int
  {
    match FindLine(items, cartId, productId)
    case Some(i) => items[i].quantity
    case None => 0
  }

  /** The line addToCart stores for a product not yet in the cart. */
  function NewLine(translations: map<(Id, string), Translation>, products: map<Id, Product>,
                   cartId: Id, productId: Id, quantity: int): (item: CartItem)
    requires productId in products
    ensures item.cartId == cartId && item.productId == productId && item.quantity == quantity
    ensures item.price == products[productId].price
    ensures item.name == Products.TextIn(translations, productId, "ES").name
    ensures products[productId].image.Some? ==> item.image == products[productId].image.value
    ensures products[productId].image.None? ==> item.image == ""
  {
    var p := products[productId];
    CartItem(cartId, productId, quantity, Products.TextIn(translations, productId, "ES").name, p.price,
             if p.image.Some? then p.image.value else "")
  }

  /** The lines after adding: the existing line grows, or the new line is stored. */
  ghost function AddLine(items: map<Id, CartItem>, cartId: Id, productId: Id, quantity: int,
                         newItemId: Id, line: CartItem): map<Id, CartItem>
  {
    match FindLine(items, cartId, productId)
    case Some(i) => items[i := items[i].(quantity := items[i].quantity + quantity)]
    case None => items[newItemId := line]
  }

  lemma AddLineKeepsUnique(items: map<Id, CartItem>, cartId: Id, productId: Id, quantity: int,
                           newItemId: Id, line: CartItem)
    requires UniqueLines(items) && newItemId !in items
    requires line.cartId == cartId && line.productId == productId
    ensures UniqueLines(AddLine(items, cartId, productId, quantity, newItemId, line))
  {
    var after := AddLine(items, cartId, productId, quantity, newItemId, line);
    match FindLine(items, cartId, productId)
    case Some(i) =>
      assert forall j :: j in after ==> after[j].cartId == items[j].cartId && after[j].productId == items[j].productId;
    case None =>
      assert forall j :: j in items ==> !IsLine(items, j, cartId, productId);
      assert forall j :: j in after && j != newItemId ==> j in items && after[j] == items[j];
  }

  /** Adding q units raises the product's quantity in the cart by exactly q. */
  lemma AddLineAccumulates(items: map<Id, CartItem>, cartId: Id, productId: Id, quantity: int,
                           newItemId: Id, line: CartItem)
    requires UniqueLines(items) && newItemId !in items
    requires line.cartId == cartId && line.productId == productId && line.quantity == quantity
    ensures QuantityIn(AddLine(items, cartId, productId, quantity, newItemId, line), cartId, productId)
            == QuantityIn(items, cartId, productId) + quantity
  {
    var after := AddLine(items, cartId, productId, quantity, newItemId, line);
    AddLineKeepsUnique(items, cartId, productId, quantity, newItemId, line);
    match FindLine(items, cartId, productId)
    case Some(i) =>
      assert IsLine(after, i, cartId, productId);
      assert FindLine(after, cartId, productId) == Some(i);
    case None =>
      assert IsLine(after, newItemId, cartId, productId);
      assert FindLine(after, cartId, productId) == Some(newItemId);
  }

  /** Adding 2 and then 1 of a product leaves a single line with quantity 3. */
  lemma AddTwoThenOne(items: map<Id, CartItem>, cartId: Id, productId: Id, id1: Id, id2: Id,
                      line1: CartItem, line2: CartItem)
    requires UniqueLines(items) && FindLine(items, cartId, productId).None?
    requires id1 !in items && id2 !in items[id1 := line1]
    requires line1 == line2.(quantity := 2) && line2.quantity == 1
    requires line2.cartId == cartId && line2.productId == productId
    ensures var twice := AddLine(AddLine(items, cartId, productId, 2, id1, line1), cartId, productId, 1, id2, line2);
            && QuantityIn(twice, cartId, productId) == 3
            && UniqueLines(twice) && id2 !in twice
  {
    var once := AddLine(items, cartId, productId, 2, id1, line1);
    AddLineAccumulates(items, cartId, productId, 2, id1, line1);
    AddLineKeepsUnique(items, cartId, productId, 2, id1, line1);
    assert once == items[id1 := line1];
    AddLineAccumulates(once, cartId, productId, 1, id2, line2);
    AddLineKeepsUnique(once, cartId, productId, 1, id2, line2);
    assert FindLine(once, cartId, productId).Some?;
  }

  /** The lines of every cart except the given one. */
  function WithoutCart(items: map<Id, CartItem>, cartId: Id): (r: map<Id, CartItem>)
    ensures forall i :: i in r <==> i in items && items[i].cartId != cartId
    ensures forall i :: i in r ==> r[i] == items[i]
  {
    map i | i in items && items[i].cartId != cartId :: items[i]
  }

  /* ---------------------------------------------------------------------- */
  /* Handlers                                                               */
  /* ---------------------------------------------------------------------- */

  /** The user's cart after `findFirst` or `create`, with its timestamp touched. */
  function Touched(carts: map<Id, Cart>, userId: Id, newCartId: Id, now: Time): (r: map<Id, Cart>)
    ensures r.Keys == carts.Keys + {userId}
    ensures userId in carts ==> r[userId] == carts[userId].(updatedAt := now)
    ensures userId !in carts ==> r[userId] == Cart(newCartId, now)
    ensures forall u :: u in carts && u != userId ==> r[u] == carts[u]
  {
    carts[userId := if userId in carts then carts[userId].(updatedAt := now) else Cart(newCartId, now)]
  }

  /** Creating or touching the user's cart keeps one cart per id. */
  lemma TouchedKeepsDistinct(carts: map<Id, Cart>, userId: Id, newCartId: Id, now: Time)
    requires DistinctCarts(carts)
    requires forall u :: u in carts ==> carts[u].id != newCartId
    ensures DistinctCarts(Touched(carts, userId, newCartId, now))
  {
  }

  method AddToCart(db: Db, userId: Id, productId: Id, quantity: int, newCartId: Id, newItemId: Id, now: Time)
    returns (r: Response<CartItem>)
    requires UniqueLines(db.cartItems) && DistinctCarts(db.carts)
    requires forall u :: u in db.carts ==> db.carts[u].id != newCartId
    requires newItemId !in db.cartItems
    modifies db`carts, db`cartItems
    ensures productId == "" || quantity < 1 ==>
      r == Fail(400, "INVALID_INPUT") && db.carts == old(db.carts) && db.cartItems == old(db.cartItems)
    ensures productId != "" && quantity >= 1 && productId !in db.products ==>
      r == Fail(404, "PRODUCT_NOT_FOUND") && db.carts == old(db.carts) && db.cartItems == old(db.cartItems)
    ensures productId != "" && quantity >= 1 && productId in db.products && !db.products[productId].inStock ==>
      r == Fail(400, "OUT_OF_STOCK") && db.carts == old(db.carts) && db.cartItems == old(db.cartItems)
    ensures productId != "" && quantity >= 1 && productId in db.products && db.products[productId].inStock ==>
      && db.carts == Touched(old(db.carts), userId, newCartId, now)
      && var cartId := db.carts[userId].id;
      && db.cartItems == AddLine(old(db.cartItems), cartId, productId, quantity, newItemId,
                                 NewLine(db.translations, db.products, cartId, productId, quantity))
      && QuantityIn(db.cartItems, cartId, productId) == QuantityIn(old(db.cartItems), cartId, productId) + quantity
      && r.Ok? && r.value.cartId == cartId && r.value.productId == productId
      && r.value.quantity == QuantityIn(db.cartItems, cartId, productId)
      && (exists i :: i in db.cartItems && db.cartItems[i] == r.value)
    ensures UniqueLines(db.cartItems) && DistinctCarts(db.carts)
  {
    if productId == "" || quantity < 1 {
      return Fail(400, "INVALID_INPUT");
    }
    if productId !in db.products {
      return Fail(404, "PRODUCT_NOT_FOUND");
    }
    if !db.products[productId].inStock {
      return Fail(400, "OUT_OF_STOCK");
    }
    TouchedKeepsDistinct(db.carts, userId, newCartId, now);
    db.carts := Touched(db.carts, userId, newCartId, now);
    var cartId := db.carts[userId].id;
    var line := NewLine(db.translations, db.products, cartId, productId, quantity);
    AddLineKeepsUnique(db.cartItems, cartId, productId, quantity, newItemId, line);
    AddLineAccumulates(db.cartItems, cartId, productId, quantity, newItemId, line);
    var item := MergeLine(db, cartId, productId, quantity, newItemId, line);
    r := Ok(item);
  }

  /** The write of addToCart: the existing line's quantity is raised, or the new line is added. */
  method MergeLine(db: Db, cartId: Id, productId: Id, quantity: int, newItemId: Id, line: CartItem)
    returns (item: CartItem)
    requires UniqueLines(db.cartItems) && newItemId !in db.cartItems
    requires line.cartId == cartId && line.productId == productId && line.quantity == quantity
    modifies db`cartItems
    ensures db.cartItems == AddLine(old(db.cartItems), cartId, productId, quantity, newItemId, line)
    ensures item.cartId == cartId && item.productId == productId
    ensures exists i :: i in db.cartItems && db.cartItems[i] == item
    ensures item.quantity == QuantityIn(db.cartItems, cartId, productId)
  {
    AddLineAccumulates(db.cartItems, cartId, productId, quantity, newItemId, line);
    ghost var found := FindLine(db.cartItems, cartId, productId);
    if exists i :: i in db.cartItems && db.cartItems[i].cartId == cartId && db.cartItems[i].productId == productId {
      var i :| i in db.cartItems && db.cartItems[i].cartId == cartId && db.cartItems[i].productId == productId;
      assert IsLine(db.cartItems, i, cartId, productId);
      assert found == Some(i);
      item := db.cartItems[i].(quantity := db.cartItems[i].quantity + quantity);
      db.cartItems := db.cartItems[i := item];
      assert i in db.cartItems && db.cartItems[i] == item;
    } else {
      item := line;
      db.cartItems := db.cartItems[newItemId := line];
      assert newItemId in db.cartItems && db.cartItems[newItemId] == item;
    }
  }

  /** The item belongs to the user's cart (a missing item and another user's item look the same). */
  predicate OwnsItem(carts: map<Id, Cart>, items: map<Id, CartItem>, userId: Id, itemId: Id)
  {
    itemId in items && userId in carts && carts[userId].id == items[itemId].cartId
  }

  method UpdateCartItem(db: Db, userId: Id, itemId: Id, quantity: int, now: Time) returns (r: Response<CartItem>)
    requires forall i :: i in db.cartItems ==> db.cartItems[i].productId in db.products
    modifies db`carts, db`cartItems
    ensures quantity < 1 ==>
      r == Fail(400, "INVALID_QUANTITY") && db.carts == old(db.carts) && db.cartItems == old(db.cartItems)
    ensures quantity >= 1 && !OwnsItem(old(db.carts), old(db.cartItems), userId, itemId) ==>
      r == Fail(404, "CART_ITEM_NOT_FOUND") && db.carts == old(db.carts) && db.cartItems == old(db.cartItems)
    ensures quantity >= 1 && OwnsItem(old(db.carts), old(db.cartItems), userId, itemId)
            && !db.products[old(db.cartItems)[itemId].productId].inStock ==>
      r == Fail(400, "OUT_OF_STOCK") && db.carts == old(db.carts) && db.cartItems == old(db.cartItems)
    ensures quantity >= 1 && OwnsItem(old(db.carts), old(db.cartItems), userId, itemId)
            && db.products[old(db.cartItems)[itemId].productId].inStock ==>
      var item := old(db.cartItems)[itemId].(quantity := quantity);
      && r == Ok(item)
      && db.cartItems == old(db.cartItems)[itemId := item]
      && db.carts == old(db.carts)[userId := old(db.carts)[userId].(updatedAt := now)]
    ensures UniqueLines(old(db.cartItems)) ==> UniqueLines(db.cartItems)
  {
    if quantity < 1 {
      return Fail(400, "INVALID_QUANTITY");
    }
    if !(itemId in db.cartItems && userId in db.carts && db.carts[userId].id == db.cartItems[itemId].cartId) {
      return Fail(404, "CART_ITEM_NOT_FOUND");
    }
    if !db.products[db.cartItems[itemId].productId].inStock {
      return Fail(400, "OUT_OF_STOCK");
    }
    var item := db.cartItems[itemId].(quantity := quantity);
    db.cartItems := db.cartItems[itemId := item];
    db.carts := db.carts[userId := db.carts[userId].(updatedAt := now)];
    r := Ok(item);
  }

  method RemoveFromCart(db: Db, userId: Id, itemId: Id, now: Time) returns (r: Response<()>)
    modifies db`carts, db`cartItems
    ensures !OwnsItem(old(db.carts), old(db.cartItems), userId, itemId) ==>
      r == Fail(404, "CART_ITEM_NOT_FOUND") && db.carts == old(db.carts) && db.cartItems == old(db.cartItems)
    ensures OwnsItem(old(db.carts), old(db.cartItems), userId, itemId) ==>
      && r == Ok(())
      && db.cartItems == old(db.cartItems) - {itemId}
      && db.carts == old(db.carts)[userId := old(db.carts)[userId].(updatedAt := now)]
    ensures UniqueLines(old(db.cartItems)) ==> UniqueLines(db.cartItems)
  {
    if !(itemId in db.cartItems && userId in db.carts && db.carts[userId].id == db.cartItems[itemId].cartId) {
      return Fail(404, "CART_ITEM_NOT_FOUND");
    }
    db.cartItems := db.cartItems - {itemId};
    db.carts := db.carts[userId := db.carts[userId].(updatedAt := now)];
    r := Ok(());
  }

  method ClearCart(db: Db, userId: Id, now: Time) returns (r: Response<()>)
    modifies db`carts, db`cartItems
    ensures userId !in old(db.carts) ==>
      r == Fail(404, "CART_NOT_FOUND") && db.carts == old(db.carts) && db.cartItems == old(db.cartItems)
    ensures userId in old(db.carts) ==>
      && r == Ok(())
      && db.cartItems == WithoutCart(old(db.cartItems), old(db.carts)[userId].id)
      && db.carts == old(db.carts)[userId := old(db.carts)[userId].(updatedAt := now)]
    ensures forall i :: i in db.cartItems && userId in db.carts ==> db.cartItems[i].cartId != db.carts[userId].id
    ensures UniqueLines(old(db.cartItems)) ==> UniqueLines(db.cartItems)
  {
    if userId !in db.carts {
      return Fail(404, "CART_NOT_FOUND");
    }
    db.cartItems := WithoutCart(db.cartItems, db.carts[userId].id);
    db.carts := db.carts[userId := db.carts[userId].(updatedAt := now)];
    r := Ok(());
  }

  /* ---------------------------------------------------------------------- */
  /* Viewing the cart and its totals                                        */
  /* ---------------------------------------------------------------------- */

  /** A cart line as shown, priced at the product's current price. */
  datatype CartLine = CartLine(itemId: Id, productId: Id, quantity: int, price: int, name: string)

  datatype CartView = CartView(cartId: Id, lines: seq<CartLine>, totalItems: int, totalAmount: int)

  function LineQuantity(l: CartLine): int { l.quantity }

  /** A line's subtotal: its current price times its quantity. */
  function LineAmount(l: CartLine): int { l.price * l.quantity }

  /** `reduce((sum, item) => sum + item.quantity, 0)`. */
  function TotalItems(lines: seq<CartLine>): int
  {
    SumBy(lines, LineQuantity)
  }

  /** `reduce((sum, item) => sum + item.subtotal, 0)`. */
  function TotalAmount(lines: seq<CartLine>): int
  {
    SumBy(lines, LineAmount)
  }

  /** The totals do not depend on the order in which the lines are listed. */
  lemma TotalsPermutationInvariant(a: seq<CartLine>, b: seq<CartLine>)
    requires multiset(a) == multiset(b)
    ensures TotalItems(a) == TotalItems(b) && TotalAmount(a) == TotalAmount(b)
  {
    SumByPermutation(a, b, LineQuantity);
    SumByPermutation(a, b, LineAmount);
  }

  /** The shown line of a cart item. */
  function ViewLine(translations: map<(Id, string), Translation>, products: map<Id, Product>,
                    items: map<Id, CartItem>, itemId: Id, language: string): CartLine
    requires itemId in items && items[itemId].productId in products
  {
    var item := items[itemId];
    CartLine(itemId, item.productId, item.quantity, products[item.productId].price,
             Products.TextIn(translations, item.productId, language).name)
  }

  /** The shown lines of one cart: each of its items once, in some order. */
  method CartLines(translations: map<(Id, string), Translation>, products: map<Id, Product>,
                   items: map<Id, CartItem>, cartId: Id, language: string) returns (lines: seq<CartLine>)
    requires forall i :: i in items ==> items[i].productId in products
    ensures forall i :: (i in items && items[i].cartId == cartId)
                        <==> exists k :: 0 <= k < |lines| && lines[k].itemId == i
    ensures forall k :: 0 <= k < |lines| ==>
      lines[k].itemId in items && lines[k] == ViewLine(translations, products, items, lines[k].itemId, language)
    ensures forall j, k :: 0 <= j < k < |lines| ==> lines[j].itemId != lines[k].itemId
  {
    var ids := Enumerate(set i | i in items && items[i].cartId == cartId);
    forall k | 0 <= k < |ids|
      ensures ids[k] in items && items[ids[k]].cartId == cartId
    {
      assert ids[k] in ids;
    }
    lines := seq(|ids|, k requires 0 <= k < |ids| => ViewLine(translations, products, items, ids[k], language));
    forall i | i in items && items[i].cartId == cartId
      ensures exists k :: 0 <= k < |lines| && lines[k].itemId == i
    {
      assert i in ids;
      var k :| 0 <= k < |ids| && ids[k] == i;
      assert lines[k].itemId == i;
    }
  }

  /** getCart: the user's cart, created empty when missing, with its lines and totals. */
  method GetCart(db: Db, userId: Id, language: string, newCartId: Id, now: Time) returns (v: CartView)
    requires forall i :: i in db.cartItems ==> db.cartItems[i].productId in db.products
    requires forall i :: i in db.cartItems ==> db.cartItems[i].cartId != newCartId
    modifies db`carts
    ensures userId in old(db.carts) ==> db.carts == old(db.carts)
    ensures userId !in old(db.carts) ==> db.carts == old(db.carts)[userId := Cart(newCartId, now)] && v.lines == []
    ensures v.cartId == db.carts[userId].id
    ensures forall i :: (i in db.cartItems && db.cartItems[i].cartId == v.cartId)
                        <==> exists k :: 0 <= k < |v.lines| && v.lines[k].itemId == i
    ensures forall k :: 0 <= k < |v.lines| ==>
      v.lines[k].itemId in db.cartItems
      && v.lines[k] == ViewLine(db.translations, db.products, db.cartItems, v.lines[k].itemId, Upper(OrElse(language, "ES")))
    ensures forall j, k :: 0 <= j < k < |v.lines| ==> v.lines[j].itemId != v.lines[k].itemId
    ensures v.totalItems == TotalItems(v.lines) && v.totalAmount == TotalAmount(v.lines)
  {
    if userId !in db.carts {
      db.carts := db.carts[userId := Cart(newCartId, now)];
    }
    var cartId := db.carts[userId].id;
    var lines := CartLines(db.translations, db.products, db.cartItems, cartId, Upper(OrElse(language, "ES")));
    v := CartView(cartId, lines, TotalItems(lines), TotalAmount(lines));
  }
}
