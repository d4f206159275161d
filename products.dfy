/**
 * The product catalogue: the translated texts with their fallbacks, the
 * listing filters and pagination, and the admin operations that create,
 * change and delete products, upsert translations and attach audio.
 */
module Products {
  import opened Common
  import opened Store

  /* ---------------------------------------------------------------------- */
  /* Formatting                                                             */
  /* ---------------------------------------------------------------------- */

  /** The texts shown for a product in one language. */
  datatype ProductText = ProductText(name: string, description: string, longDescription: string, features: seq<string>)

  /** The language of a catalogue request: `language = 'ES'` when absent, uppercased. */
  function RequestLanguage(language: Option<string>): string
  {
    Upper(if language.Some? then language.value else "ES")
  }

  /**
   * The texts of the product in the language, with the fallbacks 'Untranslated',
   * '', '' and [] when no translation exists (and for an empty name or text).
   */
  function TextIn(translations: map<(Id, string), Translation>, productId: Id, language: string): (r: ProductText)
    ensures r.name != ""
    ensures (productId, language) !in translations ==> r == ProductText("Untranslated", "", "", [])
    ensures (productId, language) in translations ==>
      var t := translations[(productId, language)];
      && (t.name != "" ==> r.name == t.name)
      && r.description == t.description && r.longDescription == t.longDescription && r.features == t.features
  {
    if (productId, language) in translations then
      var t := translations[(productId, language)];
      ProductText(OrElse(t.name, "Untranslated"), t.description, t.longDescription, t.features)
    else ProductText("Untranslated", "", "", [])
  }

  /** The listing filters: category is uppercased, the booleans compare with the text 'true'. */
  datatype ProductFilter = ProductFilter(category: string, featured: Option<string>, inStock: Option<string>)

  predicate Matches(p: Product, f: ProductFilter)
  {
    && (f.category != "" ==> p.category == Upper(f.category))
    && (f.featured.Some? ==> p.featured == (f.featured.value == "true"))
    && (f.inStock.Some? ==> p.inStock == (f.inStock.value == "true"))
  }

  /** Any value other than the text 'true' selects the rows where the flag is false. */
  lemma FilterFlagIsExactText(p: Product)
    ensures Matches(p, ProductFilter("", Some("TRUE"), None)) <==> !p.featured
    ensures Matches(p, ProductFilter("", None, Some("1"))) <==> !p.inStock
  {
  }

  /** The products the filters select. */
  function MatchingProducts(products: map<Id, Product>, f: ProductFilter): set<Id>
  {
    set id | id in products && Matches(products[id], f)
  }

  /**
   * getProducts: page 1 and 20 rows by default; the page fields over the
   * matching rows, for any page and limit the query parses to.
   */
  function ProductsPage(products: map<Id, Product>, f: ProductFilter, page: Option<int>, limit: Option<int>)
    : (p: Pagination)
    ensures var pg := Get(page, 1);
      var l := Get(limit, 20);
      var n := |MatchingProducts(products, f)|;
      && p.skip == (pg - 1) * l
      && (l > 0 ==> (p.hasMore <==> pg * l < n))
      && (l == 0 ==> (p.hasMore <==> n > 0))
      && (l < 0 ==> (p.hasMore <==> pg * l > n))
  {
    var pg := Get(page, 1);
    var l := Get(limit, 20);
    PaginateHasMore(pg, l, |MatchingProducts(products, f)|);
    Paginate(pg, l, |MatchingProducts(products, f)|)
  }

  /** With the defaults, the second page exists exactly when more than 20 products match. */
  lemma DefaultPageHasMore(products: map<Id, Product>, f: ProductFilter)
    ensures ProductsPage(products, f, None, None).hasMore
            <==> |MatchingProducts(products, f)| > 20
    ensures ProductsPage(products, f, None, None).skip == 0
  {
  }

  /* ---------------------------------------------------------------------- */
  /* Admin operations                                                       */
  /* ---------------------------------------------------------------------- */

  /** The body of createProduct; an absent optional field takes its default. */
  datatype ProductInput = ProductInput(
    category: string, price: int, image: Option<string>, images: Option<seq<string>>,
    inStock: Option<bool>, stock: Option<int>, lowStockThreshold: Option<int>,
    trackInventory: Option<bool>, featured: Option<bool>, sortOrder: Option<int>)

  /** The row createProduct stores. */
  function NewProduct(input: ProductInput): (p: Product)
    ensures input.images.None? ==> p.images == []
    ensures input.inStock.None? ==> p.inStock
    ensures input.stock.None? ==> p.stock == 0
    ensures input.lowStockThreshold.None? ==> p.lowStockThreshold == 10
    ensures input.trackInventory.None? ==> p.trackInventory
    ensures input.featured.None? ==> !p.featured
    ensures input.sortOrder.None? ==> p.sortOrder == 0
    ensures p.audioUrl.None? && p.audioTitle.None? && p.audioDuration.None?
  {
    Product(input.category, input.price, input.image, Get(input.images, []),
            Get(input.inStock, true), Get(input.stock, 0), Get(input.lowStockThreshold, 10),
            Get(input.trackInventory, true), Get(input.featured, false), Get(input.sortOrder, 0),
            None, None, None)
  }

  /** Two of the nested translations share a language (as given, not uppercased). */
  predicate RepeatsLanguage(translations: seq<(string, Translation)>)
  {
    exists i, j :: 0 <= i < j < |translations| && translations[i].0 == translations[j].0
  }

  /** The nested translations of createProduct by language; their languages are distinct. */
  function LanguageMap(nested: seq<(string, Translation)>): (m: map<string, Translation>)
    requires !RepeatsLanguage(nested)
    ensures forall l :: l in m <==> exists i :: 0 <= i < |nested| && nested[i].0 == l
    ensures forall i :: 0 <= i < |nested| ==> nested[i].0 in m && m[nested[i].0] == nested[i].1
    decreases |nested|
  {
    if nested == [] then map[]
    else
      var tail := nested[1..];
      assert forall i :: 0 < i < |nested| ==> nested[i] == tail[i - 1];
      var m := LanguageMap(tail);
      assert forall l :: l in m ==> exists i :: 0 <= i < |nested| && nested[i].0 == l by {
        forall l | l in m
          ensures exists i :: 0 <= i < |nested| && nested[i].0 == l
        {
          var i :| 0 <= i < |tail| && tail[i].0 == l;
          assert nested[i + 1].0 == l;
        }
      }
      m[nested[0].0 := nested[0].1]
  }

  /** The translation rows created with product `id`. */
  function NestedRows(id: Id, nested: seq<(string, Translation)>): (rows: map<(Id, string), Translation>)
    requires !RepeatsLanguage(nested)
    ensures forall k :: k in rows <==> k.0 == id && exists i :: 0 <= i < |nested| && nested[i].0 == k.1
    ensures forall i :: 0 <= i < |nested| ==> rows[(id, nested[i].0)] == nested[i].1
  {
    var m := LanguageMap(nested);
    map l | l in m :: (id, l) := m[l]
  }

  /**
   * createProduct: the product with its nested translations, in one write. A taken id,
   * or two translations in one language, violates a unique key: 400 PRODUCT_EXISTS.
   */
  method CreateProduct(db: Db, id: Id, input: ProductInput, translations: seq<(string, Translation)>)
    returns (r: Response<Product>)
    modifies db`products, db`translations
    ensures id in old(db.products) || RepeatsLanguage(translations) ==>
      && r == Fail(400, "PRODUCT_EXISTS")
      && db.products == old(db.products) && db.translations == old(db.translations)
    ensures id !in old(db.products) && !RepeatsLanguage(translations) ==>
      && r == Ok(NewProduct(input))
      && db.products == old(db.products)[id := NewProduct(input)]
      && db.translations == old(db.translations) + NestedRows(id, translations)
  {
    if id in db.products || exists i, j :: 0 <= i < j < |translations| && translations[i].0 == translations[j].0 {
      return Fail(400, "PRODUCT_EXISTS");
    }
    db.products := db.products[id := NewProduct(input)];
    db.translations := db.translations + NestedRows(id, translations);
    r := Ok(NewProduct(input));
  }

  /** The fields of updateProduct; an absent field is left as it is. */
  datatype ProductPatch = ProductPatch(
    category: Option<string>, price: Option<int>, image: Option<Option<string>>, images: Option<seq<string>>,
    inStock: Option<bool>, stock: Option<int>, lowStockThreshold: Option<int>,
    trackInventory: Option<bool>, featured: Option<bool>, sortOrder: Option<int>)

  function Patched(p: Product, patch: ProductPatch): (r: Product)
    ensures patch == ProductPatch(None, None, None, None, None, None, None, None, None, None) ==> r == p
    ensures r.audioUrl == p.audioUrl && r.audioTitle == p.audioTitle && r.audioDuration == p.audioDuration
  {
    Product(Get(patch.category, p.category), Get(patch.price, p.price), Get(patch.image, p.image),
            Get(patch.images, p.images), Get(patch.inStock, p.inStock), Get(patch.stock, p.stock),
            Get(patch.lowStockThreshold, p.lowStockThreshold), Get(patch.trackInventory, p.trackInventory),
            Get(patch.featured, p.featured), Get(patch.sortOrder, p.sortOrder),
            p.audioUrl, p.audioTitle, p.audioDuration)
  }

  method UpdateProduct(db: Db, id: Id, patch: ProductPatch) returns (r: Response<Product>)
    modifies db`products
    ensures id !in old(db.products) ==> r == Fail(404, "PRODUCT_NOT_FOUND") && db.products == old(db.products)
    ensures id in old(db.products) ==>
      && r == Ok(Patched(old(db.products)[id], patch))
      && db.products == old(db.products)[id := Patched(old(db.products)[id], patch)]
  {
    if id !in db.products {
      return Fail(404, "PRODUCT_NOT_FOUND");
    }
    var p := Patched(db.products[id], patch);
    db.products := db.products[id := p];
    r := Ok(p);
  }

  /**
   * Whether a stored row refers to the product: a translation, a cart line,
   * an order line, a review or a wishlist entry.
   */
  predicate Referenced(translations: map<(Id, string), Translation>, cartItems: map<Id, CartItem>,
                       orders: map<Id, Order>, reviews: map<Id, Review>, wishlist: map<(Id, Id), WishlistItem>,
                       id: Id)
  {
    || (exists k :: k in translations && k.0 == id)
    || (exists i :: i in cartItems && cartItems[i].productId == id)
    || (exists o, n :: o in orders && 0 <= n < |orders[o].items| && orders[o].items[n].productId == id)
    || (exists v :: v in reviews && reviews[v].productId == id)
    || (exists k :: k in wishlist && k.1 == id)
  }

  /** Every row that refers to a product refers to a stored one. */
  predicate ReferencesResolve(products: map<Id, Product>, translations: map<(Id, string), Translation>,
                              cartItems: map<Id, CartItem>, orders: map<Id, Order>, reviews: map<Id, Review>,
                              wishlist: map<(Id, Id), WishlistItem>)
  {
    && (forall k :: k in translations ==> k.0 in products)
    && (forall i :: i in cartItems ==> cartItems[i].productId in products)
    && (forall o, n :: o in orders && 0 <= n < |orders[o].items| ==> orders[o].items[n].productId in products)
    && (forall v :: v in reviews ==> reviews[v].productId in products)
    && (forall k :: k in wishlist ==> k.1 in products)
  }

  /**
   * A delete the store lets through leaves no dangling reference, and a
   * product later created under the same id starts without texts.
   */
  lemma DeleteKeepsReferencesResolved(products: map<Id, Product>, translations: map<(Id, string), Translation>,
                                      cartItems: map<Id, CartItem>, orders: map<Id, Order>,
                                      reviews: map<Id, Review>, wishlist: map<(Id, Id), WishlistItem>, id: Id)
    requires ReferencesResolve(products, translations, cartItems, orders, reviews, wishlist)
    requires !Referenced(translations, cartItems, orders, reviews, wishlist, id)
    ensures ReferencesResolve(products - {id}, translations, cartItems, orders, reviews, wishlist)
    ensures forall language :: (id, language) !in translations
  {
  }

  /**
   * deleteProduct: 404 for an unknown product; a product some row still refers
   * to is refused by the store's foreign keys, which the handler answers with
   * 500 DELETE_PRODUCT_FAILED; otherwise the product row goes.
   */
  method DeleteProduct(db: Db, id: Id) returns (r: Response<()>)
    modifies db`products
    ensures id !in old(db.products) ==> r == Fail(404, "PRODUCT_NOT_FOUND") && db.products == old(db.products)
    ensures id in old(db.products) && Referenced(db.translations, db.cartItems, db.orders, db.reviews, db.wishlist, id) ==>
      r == Fail(500, "DELETE_PRODUCT_FAILED") && db.products == old(db.products)
    ensures id in old(db.products) && !Referenced(db.translations, db.cartItems, db.orders, db.reviews, db.wishlist, id) ==>
      r == Ok(()) && db.products == old(db.products) - {id}
  {
    if id !in db.products {
      return Fail(404, "PRODUCT_NOT_FOUND");
    }
    if Referenced(db.translations, db.cartItems, db.orders, db.reviews, db.wishlist, id) {
      return Fail(500, "DELETE_PRODUCT_FAILED");
    }
    db.products := db.products - {id};
    r := Ok(());
  }

  /** The texts of an upsert request; None is a field the body leaves out. */
  datatype TranslationInput = TranslationInput(
    name: Option<string>, description: Option<string>, longDescription: Option<string>,
    features: Option<seq<string>>)

  /**
   * The row the upsert writes over the stored one, if any. An update sets the
   * texts the body supplies and keeps the others; `features` defaults to [] and
   * so is always written. A create needs all three texts: without one the
   * insert fails.
   */
  function UpsertedRow(stored: Option<Translation>, input: TranslationInput): (r: Option<Translation>)
    ensures r.None? <==>
      stored.None? && (input.name.None? || input.description.None? || input.longDescription.None?)
    ensures r.Some? ==> r.value.features == Get(input.features, [])
    ensures r.Some? ==> r.value.name == if input.name.Some? then input.name.value else stored.value.name
    ensures r.Some? ==>
      r.value.description == if input.description.Some? then input.description.value else stored.value.description
    ensures r.Some? ==>
      r.value.longDescription ==
        if input.longDescription.Some? then input.longDescription.value else stored.value.longDescription
  {
    match stored
    case Some(t) =>
      Some(Translation(Get(input.name, t.name), Get(input.description, t.description),
                       Get(input.longDescription, t.longDescription), Get(input.features, [])))
    case None =>
      if input.name.None? || input.description.None? || input.longDescription.None? then None
      else Some(Translation(input.name.value, input.description.value, input.longDescription.value,
                            Get(input.features, [])))
  }

  /** The stored row under (product, uppercased language), if any. */
  function StoredTranslation(translations: map<(Id, string), Translation>, id: Id, language: string)
    : Option<Translation>
  {
    if (id, Upper(language)) in translations then Some(translations[(id, Upper(language))]) else None
  }

  /** The translation table after the upsert, or None when the insert of a new row fails. */
  function Upserted(translations: map<(Id, string), Translation>, id: Id, language: string, input: TranslationInput)
    : (r: Option<map<(Id, string), Translation>>)
    ensures r.None? <==> UpsertedRow(StoredTranslation(translations, id, language), input).None?
    ensures r.Some? ==> r.value.Keys == translations.Keys + {(id, Upper(language))}
    ensures r.Some? ==> r.value[(id, Upper(language))] == UpsertedRow(StoredTranslation(translations, id, language), input).value
    ensures r.Some? ==> forall k :: k in translations && k != (id, Upper(language)) ==> r.value[k] == translations[k]
  {
    var row := UpsertedRow(StoredTranslation(translations, id, language), input);
    if row.None? then None else Some(translations[(id, Upper(language)) := row.value])
  }

  /** With all three texts supplied, the written row does not depend on what was stored. */
  lemma FullInputIgnoresStoredRow(s1: Option<Translation>, s2: Option<Translation>, input: TranslationInput)
    requires input.name.Some? && input.description.Some? && input.longDescription.Some?
    ensures UpsertedRow(s1, input) == UpsertedRow(s2, input)
    ensures UpsertedRow(s1, input).Some?
  {
  }

  /**
   * A body with only a name renames an existing row and keeps both descriptions,
   * but clears its features, since `features` defaults to [].
   */
  lemma NameOnlyUpdate(translations: map<(Id, string), Translation>, id: Id, language: string, name: string)
    requires (id, Upper(language)) in translations
    ensures var t := translations[(id, Upper(language))];
      Upserted(translations, id, language, TranslationInput(Some(name), None, None, None))
        == Some(translations[(id, Upper(language)) := t.(name := name, features := [])])
  {
  }

  /** A new row from a body without a description is not written. */
  lemma CreateNeedsAllTexts(translations: map<(Id, string), Translation>, id: Id, language: string,
                            input: TranslationInput)
    requires (id, Upper(language)) !in translations
    ensures Upserted(translations, id, language, input).Some? <==>
      input.name.Some? && input.description.Some? && input.longDescription.Some?
  {
  }

  /** Repeating the same upsert changes nothing more. */
  lemma UpsertIdempotent(translations: map<(Id, string), Translation>, id: Id, language: string,
                         input: TranslationInput)
    requires Upserted(translations, id, language, input).Some?
    ensures var once := Upserted(translations, id, language, input).value;
      Upserted(once, id, language, input) == Some(once)
  {
    var once := Upserted(translations, id, language, input).value;
    var row := once[(id, Upper(language))];
    assert StoredTranslation(once, id, language) == Some(row);
    var again := UpsertedRow(Some(row), input);
    assert again.value == row;
    assert once[(id, Upper(language)) := row] == once;
  }

  /** After an upsert with a name, the catalogue shows that name in that language, whatever its case. */
  lemma UpsertThenText(translations: map<(Id, string), Translation>, id: Id, language: string,
                       input: TranslationInput)
    requires input.name.Some? && input.name.value != ""
    requires Upserted(translations, id, language, input).Some?
    ensures TextIn(Upserted(translations, id, language, input).value, id, RequestLanguage(Some(language))).name
            == input.name.value
  {
  }

  method UpsertProductTranslation(db: Db, id: Id, language: string, input: TranslationInput)
    returns (r: Response<Translation>)
    modifies db`translations
    ensures id !in db.products ==> r == Fail(404, "PRODUCT_NOT_FOUND") && db.translations == old(db.translations)
    ensures id in db.products && Upserted(old(db.translations), id, language, input).None? ==>
      r == Fail(500, "UPDATE_TRANSLATION_FAILED") && db.translations == old(db.translations)
    ensures id in db.products && Upserted(old(db.translations), id, language, input).Some? ==>
      && db.translations == Upserted(old(db.translations), id, language, input).value
      && r == Ok(db.translations[(id, Upper(language))])
  {
    if id !in db.products {
      return Fail(404, "PRODUCT_NOT_FOUND");
    }
    var next := Upserted(db.translations, id, language, input);
    if next.None? {
      return Fail(500, "UPDATE_TRANSLATION_FAILED");
    }
    db.translations := next.value;
    r := Ok(next.value[(id, Upper(language))]);
  }

  /** updateProductAudio: the title is null when empty, the duration null when absent or 0. */
  function WithAudio(p: Product, audioUrl: string, audioTitle: string, audioDuration: Option<int>): (r: Product)
    ensures r.audioUrl == Some(audioUrl)
    ensures r.audioTitle == OrNull(audioTitle)
    ensures r.audioDuration.Some? <==> audioDuration.Some? && audioDuration.value != 0
    ensures r.(audioUrl := p.audioUrl, audioTitle := p.audioTitle, audioDuration := p.audioDuration) == p
  {
    p.(audioUrl := Some(audioUrl), audioTitle := OrNull(audioTitle),
       audioDuration := if audioDuration.Some? && audioDuration.value != 0 then audioDuration else None)
  }

  function WithoutAudio(p: Product): Product
  {
    p.(audioUrl := None, audioTitle := None, audioDuration := None)
  }

  /** Removing the audio undoes any earlier setting of it. */
  lemma RemoveAudioUndoesSet(p: Product, audioUrl: string, audioTitle: string, audioDuration: Option<int>)
    ensures WithoutAudio(WithAudio(p, audioUrl, audioTitle, audioDuration)) == WithoutAudio(p)
  {
  }

  method UpdateProductAudio(db: Db, id: Id, audioUrl: string, audioTitle: string, audioDuration: Option<int>)
    returns (r: Response<Product>)
    modifies db`products
    ensures id !in old(db.products) ==> r == Fail(404, "PRODUCT_NOT_FOUND") && db.products == old(db.products)
    ensures id in old(db.products) && audioUrl == "" ==>
      r == Fail(400, "INVALID_AUDIO_DATA") && db.products == old(db.products)
    ensures id in old(db.products) && audioUrl != "" ==>
      var p := WithAudio(old(db.products)[id], audioUrl, audioTitle, audioDuration);
      r == Ok(p) && db.products == old(db.products)[id := p]
  {
    if id !in db.products {
      return Fail(404, "PRODUCT_NOT_FOUND");
    }
    if audioUrl == "" {
      return Fail(400, "INVALID_AUDIO_DATA");
    }
    var p := WithAudio(db.products[id], audioUrl, audioTitle, audioDuration);
    db.products := db.products[id := p];
    r := Ok(p);
  }

  method RemoveProductAudio(db: Db, id: Id) returns (r: Response<Product>)
    modifies db`products
    ensures id !in old(db.products) ==> r == Fail(404, "PRODUCT_NOT_FOUND") && db.products == old(db.products)
    ensures id in old(db.products) ==>
      var p := WithoutAudio(old(db.products)[id]);
      && r == Ok(p) && p.audioUrl.None? && p.audioTitle.None? && p.audioDuration.None?
      && db.products == old(db.products)[id := p]
  {
    if id !in db.products {
      return Fail(404, "PRODUCT_NOT_FOUND");
    }
    var p := WithoutAudio(db.products[id]);
    db.products := db.products[id := p];
    r := Ok(p);
  }
}
