/**
 * Stock administration: the three-way stock label, the inventory update with
 * its validation, the low-stock listing and the counts of the statistics page.
 */
module Inventory {
  import opened Common
  import opened Store

  /* ---------------------------------------------------------------------- */
  /* Stock labels                                                           */
  /* ---------------------------------------------------------------------- */

  datatype StockStatus = OutOfStock | LowStock | InStock

  /** The label shown next to a product's stock. */
  function StockStatusOf(stock: int, threshold: int): (s: StockStatus)
    ensures s == OutOfStock <==> stock == 0
    ensures s == LowStock <==> stock != 0 && stock <= threshold
    ensures s == InStock <==> stock != 0 && stock > threshold
  {
    if stock == 0 then OutOfStock else if stock <= threshold then LowStock else InStock
  }

  /** The three conditions the statistics page counts among tracked products. */
  predicate CountedOutOfStock(p: Product) { p.trackInventory && p.stock == 0 }
  predicate CountedLowStock(p: Product) { p.trackInventory && p.stock > 0 && p.stock <= p.lowStockThreshold }
  predicate CountedInStock(p: Product) { p.trackInventory && p.stock > p.lowStockThreshold }

  /**
   * For a tracked product with a non-negative stock exactly one of the three
   * counted conditions holds when its threshold is non-negative, and it is the
   * one its label names.
   */
  lemma CountedConditionsPartition(p: Product)
    requires p.trackInventory && p.stock >= 0
    ensures CountedOutOfStock(p) || CountedLowStock(p) || CountedInStock(p)
    ensures p.lowStockThreshold >= 0 ==>
      && !(CountedOutOfStock(p) && CountedLowStock(p))
      && !(CountedOutOfStock(p) && CountedInStock(p))
      && !(CountedLowStock(p) && CountedInStock(p))
    ensures p.lowStockThreshold >= 0 ==>
      && (CountedOutOfStock(p) <==> StockStatusOf(p.stock, p.lowStockThreshold) == OutOfStock)
      && (CountedLowStock(p) <==> StockStatusOf(p.stock, p.lowStockThreshold) == LowStock)
      && (CountedInStock(p) <==> StockStatusOf(p.stock, p.lowStockThreshold) == InStock)
  {
  }

  /** With a negative threshold an empty tracked product is counted both as out of stock and as in stock. */
  lemma NegativeThresholdCountsTwice(p: Product)
    requires p.trackInventory && p.stock == 0 && p.lowStockThreshold < 0
    ensures CountedOutOfStock(p) && CountedInStock(p)
  {
  }

  /* ---------------------------------------------------------------------- */
  /* Statistics                                                             */
  /* ---------------------------------------------------------------------- */

  datatype InventoryStats = InventoryStats(
    totalProducts: nat, trackingInventory: nat, outOfStock: nat, lowStock: nat, inStock: nat)

  function TrackedIds(products: map<Id, Product>): set<Id>
  {
    set id | id in products && products[id].trackInventory
  }

  function Stats(products: map<Id, Product>): InventoryStats
  {
    InventoryStats(
      |products|,
      |TrackedIds(products)|,
      |set id | id in products && CountedOutOfStock(products[id])|,
      |set id | id in products && CountedLowStock(products[id])|,
      |set id | id in products && CountedInStock(products[id])|)
  }

  /** Stock and threshold are never negative on the tracked products (what the inventory update enforces). */
  ghost predicate NonNegativeStock(products: map<Id, Product>)
  {
    forall id :: id in products && products[id].trackInventory ==>
      products[id].stock >= 0 && products[id].lowStockThreshold >= 0
  }

  /** The three counts split the tracked products, which are among all products. */
  lemma StatsAddUp(products: map<Id, Product>)
    requires NonNegativeStock(products)
    ensures var s := Stats(products);
      s.outOfStock + s.lowStock + s.inStock == s.trackingInventory <= s.totalProducts
  {
    var out := set id | id in products && CountedOutOfStock(products[id]);
    var low := set id | id in products && CountedLowStock(products[id]);
    var inn := set id | id in products && CountedInStock(products[id]);
    var tracked := TrackedIds(products);
    forall id | id in tracked
      ensures id in out + low + inn
    {
      CountedConditionsPartition(products[id]);
    }
    forall id | id in out + low + inn
      ensures id in tracked
    {
    }
    assert out + low + inn == tracked;
    assert out * low == {};
    assert (out + low) * inn == {};
    assert |out + low| == |out| + |low|;
    assert |out + low + inn| == |out + low| + |inn|;
    assert tracked <= products.Keys;
    SubsetSize(tracked, products.Keys);
  }

  lemma SubsetSize<T>(a: set<T>, b: set<T>)
    requires a <= b
    ensures |a| <= |b|
  {
    assert b == a + (b - a);
  }

  /* ---------------------------------------------------------------------- */
  /* Low-stock listing                                                      */
  /* ---------------------------------------------------------------------- */

  function StockOf(products: map<Id, Product>): Id -> int
  {
    (id: Id) => if id in products then products[id].stock else 0
  }

  /** getLowStockProducts: the tracked products with 0 < stock <= threshold, by stock ascending. */
  method LowStockProducts(db: Db) returns (ids: seq<Id>)
    ensures forall id :: id in ids <==> id in db.products && CountedLowStock(db.products[id])
    ensures Distinct(ids)
    ensures forall i, j :: 0 <= i < j < |ids| ==> db.products[ids[i]].stock <= db.products[ids[j]].stock
    ensures forall k :: 0 <= k < |ids| ==>
      StockStatusOf(db.products[ids[k]].stock, db.products[ids[k]].lowStockThreshold) == LowStock
  {
    var products := db.products;
    var low := set id | id in products && CountedLowStock(products[id]);
    ids := EnumerateSorted(low, StockOf(products));
    forall i, j | 0 <= i < j < |ids|
      ensures ids[i] in products && ids[j] in products && products[ids[i]].stock <= products[ids[j]].stock
    {
      assert ids[i] in low && ids[j] in low;
      assert ByKey(StockOf(products))(ids[i], ids[j]);
    }
  }

  /* ---------------------------------------------------------------------- */
  /* Inventory update                                                       */
  /* ---------------------------------------------------------------------- */

  /** The product after an inventory update with the supplied fields. */
  function Adjusted(p: Product, stock: Option<int>, threshold: Option<int>, track: Option<bool>): (r: Product)
  {
    var p1 := if stock.Some? then p.(stock := stock.value, inStock := stock.value > 0) else p;
    var p2 := if threshold.Some? then p1.(lowStockThreshold := threshold.value) else p1;
    if track.Some? then p2.(trackInventory := track.value) else p2
  }

  /**
   * A supplied field takes the supplied value, a supplied stock also sets
   * inStock, and every other field keeps its value.
   */
  lemma AdjustedChangesOnlySupplied(p: Product, stock: Option<int>, threshold: Option<int>, track: Option<bool>)
    ensures var r := Adjusted(p, stock, threshold, track);
      && r.stock == (if stock.Some? then stock.value else p.stock)
      && r.inStock == (if stock.Some? then stock.value > 0 else p.inStock)
      && r.lowStockThreshold == (if threshold.Some? then threshold.value else p.lowStockThreshold)
      && r.trackInventory == (if track.Some? then track.value else p.trackInventory)
      && r.(stock := p.stock, inStock := p.inStock, lowStockThreshold := p.lowStockThreshold,
            trackInventory := p.trackInventory) == p
  {
  }

  /** With a supplied non-negative stock, inStock holds exactly when the label is not out-of-stock. */
  lemma AdjustedStockAgreesWithLabel(p: Product, stock: int, threshold: Option<int>, track: Option<bool>)
    requires stock >= 0
    ensures var r := Adjusted(p, Some(stock), threshold, track);
      r.inStock <==> StockStatusOf(r.stock, r.lowStockThreshold) != OutOfStock
  {
  }

  /** Repeating the same update changes nothing more. */
  lemma AdjustedIdempotent(p: Product, stock: Option<int>, threshold: Option<int>, track: Option<bool>)
    ensures Adjusted(Adjusted(p, stock, threshold, track), stock, threshold, track) == Adjusted(p, stock, threshold, track)
  {
  }

  /** updateProductInventory: existence first, then the two sign checks; the updated product and its label. */
  method UpdateProductInventory(db: Db, productId: Id, stock: Option<int>, threshold: Option<int>, track: Option<bool>)
    returns (r: Response<(Product, StockStatus)>)
    modifies db`products
    ensures productId !in old(db.products) ==> r == Fail(404, "PRODUCT_NOT_FOUND")
    ensures productId in old(db.products) && stock.Some? && stock.value < 0 ==> r == Fail(400, "INVALID_STOCK")
    ensures productId in old(db.products) && !(stock.Some? && stock.value < 0) && threshold.Some? && threshold.value < 0 ==>
      r == Fail(400, "INVALID_THRESHOLD")
    ensures r.Fail? ==> db.products == old(db.products)
    ensures productId in old(db.products) && !(stock.Some? && stock.value < 0) && !(threshold.Some? && threshold.value < 0) ==>
      var p := Adjusted(old(db.products)[productId], stock, threshold, track);
      && r == Ok((p, StockStatusOf(p.stock, p.lowStockThreshold)))
      && db.products == old(db.products)[productId := p]
  {
    if productId !in db.products {
      return Fail(404, "PRODUCT_NOT_FOUND");
    }
    if stock.Some? && stock.value < 0 {
      return Fail(400, "INVALID_STOCK");
    }
    if threshold.Some? && threshold.value < 0 {
      return Fail(400, "INVALID_THRESHOLD");
    }
    var p := db.products[productId];
    if stock.Some? {
      p := p.(stock := stock.value, inStock := stock.value > 0);
    }
    if threshold.Some? {
      p := p.(lowStockThreshold := threshold.value);
    }
    if track.Some? {
      p := p.(trackInventory := track.value);
    }
    db.products := db.products[productId := p];
    r := Ok((p, StockStatusOf(p.stock, p.lowStockThreshold)));
  }

  /** A successful inventory update keeps the stock and threshold of the updated product non-negative if they were. */
  lemma UpdateKeepsNonNegativeStock(products: map<Id, Product>, productId: Id, stock: Option<int>,
                                    threshold: Option<int>, track: Option<bool>)
    requires NonNegativeStock(products) && productId in products
    requires stock.None? || stock.value >= 0
    requires threshold.None? || threshold.value >= 0
    requires products[productId].stock >= 0 && products[productId].lowStockThreshold >= 0
    ensures NonNegativeStock(products[productId := Adjusted(products[productId], stock, threshold, track)])
  {
  }
}
