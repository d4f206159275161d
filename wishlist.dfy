/**
 * Wishlists: at most one entry per (user, product), stored under that pair,
 * listed newest first.
 */
module Wishlist {
  import opened Common
  import opened Store

  /** checkWishlistStatus's answer. */
  predicate InWishlist(wishlist: map<(Id, Id), WishlistItem>, userId: Id, productId: Id)
  {
    (userId, productId) in wishlist
  }

  /** addToWishlist; `newId` is the id the database assigns to the entry. */
  method AddToWishlist(db: Db, userId: Id, productId: Id, newId: Id, now: Time) returns (r: Response<Id>)
    modifies db`wishlist
    ensures productId !in db.products ==> r == Fail(404, "PRODUCT_NOT_FOUND") && db.wishlist == old(db.wishlist)
    ensures productId in db.products && InWishlist(old(db.wishlist), userId, productId) ==>
      r == Fail(400, "ALREADY_IN_WISHLIST") && db.wishlist == old(db.wishlist)
    ensures productId in db.products && !InWishlist(old(db.wishlist), userId, productId) ==>
      r == Ok(newId) && db.wishlist == old(db.wishlist)[(userId, productId) := WishlistItem(newId, now)]
    ensures r.Ok? ==> InWishlist(db.wishlist, userId, productId) && |db.wishlist| == |old(db.wishlist)| + 1
  {
    if productId !in db.products {
      return Fail(404, "PRODUCT_NOT_FOUND");
    }
    if (userId, productId) in db.wishlist {
      return Fail(400, "ALREADY_IN_WISHLIST");
    }
    db.wishlist := db.wishlist[(userId, productId) := WishlistItem(newId, now)];
    r := Ok(newId);
  }

  method RemoveFromWishlist(db: Db, userId: Id, productId: Id) returns (r: Response<()>)
    modifies db`wishlist
    ensures !InWishlist(old(db.wishlist), userId, productId) ==>
      r == Fail(404, "WISHLIST_ITEM_NOT_FOUND") && db.wishlist == old(db.wishlist)
    ensures InWishlist(old(db.wishlist), userId, productId) ==>
      r == Ok(()) && db.wishlist == old(db.wishlist) - {(userId, productId)}
    ensures !InWishlist(db.wishlist, userId, productId)
  {
    if (userId, productId) !in db.wishlist {
      return Fail(404, "WISHLIST_ITEM_NOT_FOUND");
    }
    db.wishlist := db.wishlist - {(userId, productId)};
    r := Ok(());
  }

  method CheckWishlistStatus(db: Db, userId: Id, productId: Id) returns (inWishlist: bool)
    ensures inWishlist <==> InWishlist(db.wishlist, userId, productId)
  {
    inWishlist := (userId, productId) in db.wishlist;
  }

  /** Adding and then removing an entry restores the wishlist; other users' and products' entries are never touched. */
  lemma AddThenRemoveRestores(wishlist: map<(Id, Id), WishlistItem>, userId: Id, productId: Id, item: WishlistItem)
    requires !InWishlist(wishlist, userId, productId)
    ensures wishlist[(userId, productId) := item] - {(userId, productId)} == wishlist
    ensures forall u, p :: (u, p) != (userId, productId) ==>
      (InWishlist(wishlist[(userId, productId) := item], u, p) <==> InWishlist(wishlist, u, p))
  {
  }

  /** The products on a user's wishlist. */
  function WishedProducts(wishlist: map<(Id, Id), WishlistItem>, userId: Id): set<Id>
  {
    set key | key in wishlist && key.0 == userId :: key.1
  }

  /** Newest first: a larger createdAt sorts earlier. */
  function AgeOf(wishlist: map<(Id, Id), WishlistItem>, userId: Id): Id -> int
  {
    (productId: Id) => if (userId, productId) in wishlist then -wishlist[(userId, productId)].createdAt else 0
  }

  /** getWishlist: the user's wished products, newest first, and their count. */
  method GetWishlist(db: Db, userId: Id) returns (productIds: seq<Id>, count: nat)
    ensures forall p :: p in productIds <==> InWishlist(db.wishlist, userId, p)
    ensures Distinct(productIds)
    ensures count == |productIds| == |WishedProducts(db.wishlist, userId)|
    ensures forall k :: 0 <= k < |productIds| ==> (userId, productIds[k]) in db.wishlist
    ensures forall i, j :: 0 <= i < j < |productIds| ==>
      db.wishlist[(userId, productIds[i])].createdAt >= db.wishlist[(userId, productIds[j])].createdAt
  {
    var wishlist := db.wishlist;
    var wished := WishedProducts(wishlist, userId);
    forall p ensures p in wished <==> (userId, p) in wishlist
    {
      if (userId, p) in wishlist {
        assert (userId, p).1 == p;
      }
    }
    productIds := EnumerateSorted(wished, AgeOf(wishlist, userId));
    forall i, j | 0 <= i < j < |productIds|
      ensures (userId, productIds[i]) in wishlist && (userId, productIds[j]) in wishlist
      ensures wishlist[(userId, productIds[i])].createdAt >= wishlist[(userId, productIds[j])].createdAt
    {
      assert productIds[i] in wished && productIds[j] in wished;
      assert ByKey(AgeOf(wishlist, userId))(productIds[i], productIds[j]);
    }
    count := |productIds|;
  }
}
