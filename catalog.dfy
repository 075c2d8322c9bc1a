/** The catalog and checkout endpoints (backend/main.py): creating and
    listing products, looking one up by slug, and recording a checkout. Each
    endpoint validates its body, shapes a document or a filter and makes one
    call on the document store client. */
module Catalog {
  import opened Values
  import opened Schemas
  import opened Database
  import ObjectIds

  const DownloadPrefix := "https://example.com/download/"

  const NotFound := HttpError(404, VStr("Product not found"))

  // ----------------------------------------------------------- list_products

  /** `price_filter`: `$gte` for a lower bound and `$lte` for an upper bound,
      each present exactly when that bound is given, even when it is 0. */
  function PriceFilter(minPrice: Option<real>, maxPrice: Option<real>): (ops: map<string, Value>)
    ensures ops.Keys <= {"$gte", "$lte"}
    ensures "$gte" in ops <==> minPrice.Some?
    ensures "$lte" in ops <==> maxPrice.Some?
    ensures minPrice.Some? ==> ops["$gte"] == VNum(minPrice.value)
    ensures maxPrice.Some? ==> ops["$lte"] == VNum(maxPrice.value)
  {
    var lower: map<string, Value> := if minPrice.Some? then map["$gte" := VNum(minPrice.value)] else map[];
    if maxPrice.Some? then lower["$lte" := VNum(maxPrice.value)] else lower
  }

  /** The filter `list_products` sends to the store. A category or level is
      used only when it is a non-empty string; the price filter is used when
      it is not empty, that is when a bound is given. */
  function ListFilter(category: Option<string>, minPrice: Option<real>, maxPrice: Option<real>,
                      level: Option<string>): (f: Document)
    ensures f.Keys <= {"category", "level", "price"}
    ensures "category" in f <==> TruthyText(category)
    ensures "category" in f ==> f["category"] == VStr(category.value)
    ensures "level" in f <==> TruthyText(level)
    ensures "level" in f ==> f["level"] == VStr(level.value)
    ensures "price" in f <==> minPrice.Some? || maxPrice.Some?
    ensures "price" in f ==> f["price"] == VObj(PriceFilter(minPrice, maxPrice))
  {
    var withCategory: Document := if TruthyText(category) then map["category" := VStr(category.value)] else map[];
    var withLevel := if TruthyText(level) then withCategory["level" := VStr(level.value)] else withCategory;
    var price := PriceFilter(minPrice, maxPrice);
    assert price != map[] <==> minPrice.Some? || maxPrice.Some? by {
      assert minPrice.Some? ==> "$gte" in price;
      assert maxPrice.Some? ==> "$lte" in price;
    }
    if price != map[] then withLevel["price" := VObj(price)] else withLevel
  }

  /** `list_products` builds `filter_q` and `price_filter` by conditional
      insertion, in this order. */
  method BuildFilter(category: Option<string>, minPrice: Option<real>, maxPrice: Option<real>,
                     level: Option<string>) returns (filter: Document)
    ensures filter == ListFilter(category, minPrice, maxPrice, level)
  {
    filter := map[];
    if TruthyText(category) {
      filter := filter["category" := VStr(category.value)];
    }
    if TruthyText(level) {
      filter := filter["level" := VStr(level.value)];
    }
    var priceFilter: map<string, Value> := map[];
    if minPrice.Some? {
      priceFilter := priceFilter["$gte" := VNum(minPrice.value)];
    }
    if maxPrice.Some? {
      priceFilter := priceFilter["$lte" := VNum(maxPrice.value)];
    }
    assert priceFilter == PriceFilter(minPrice, maxPrice);
    if priceFilter != map[] {
      filter := filter["price" := VObj(priceFilter)];
    }
  }

  /** The numeric price of a document, if it has one. */
  function PriceOf(doc: Document): Option<real>
  {
    if "price" in doc then NumberOf(doc["price"]) else None
  }

  /** A price within the given bounds; a missing price is within none. */
  predicate InRange(price: Option<real>, minPrice: Option<real>, maxPrice: Option<real>)
  {
    && (minPrice.Some? ==> price.Some? && price.value >= minPrice.value)
    && (maxPrice.Some? ==> price.Some? && price.value <= maxPrice.value)
  }

  /** What a listing asks of a product, stated without filters: the given
      category and level, and a price within the given bounds. */
  predicate Wanted(doc: Document, category: Option<string>, minPrice: Option<real>,
                   maxPrice: Option<real>, level: Option<string>)
  {
    && (TruthyText(category) ==> FieldOf(doc, "category") == Some(VStr(category.value)))
    && (TruthyText(level) ==> FieldOf(doc, "level") == Some(VStr(level.value)))
    && InRange(PriceOf(doc), minPrice, maxPrice)
  }

  /** Under the store's filter semantics, the price filter accepts exactly
      the prices within the bounds. */
  lemma PriceFilterMeaning(doc: Document, minPrice: Option<real>, maxPrice: Option<real>)
    requires minPrice.Some? || maxPrice.Some?
    ensures ConditionHolds(FieldOf(doc, "price"), VObj(PriceFilter(minPrice, maxPrice)))
            <==> InRange(PriceOf(doc), minPrice, maxPrice)
  {
    var ops := PriceFilter(minPrice, maxPrice);
    assert IsOperatorDocument(ops) by {
      assert forall k | k in ops :: k == "$gte" || k == "$lte";
      assert minPrice.Some? ==> "$gte" in ops;
    }
    if minPrice.Some? {
      assert ConditionHolds(FieldOf(doc, "price"), VObj(ops)) ==> OperatorHolds(FieldOf(doc, "price"), "$gte", ops["$gte"]);
    }
    if maxPrice.Some? {
      assert ConditionHolds(FieldOf(doc, "price"), VObj(ops)) ==> OperatorHolds(FieldOf(doc, "price"), "$lte", ops["$lte"]);
    }
  }

  /** A product that matches the listing filter is wanted. */
  lemma ListFilterSound(doc: Document, category: Option<string>, minPrice: Option<real>,
                        maxPrice: Option<real>, level: Option<string>)
    requires Matches(doc, ListFilter(category, minPrice, maxPrice, level))
    ensures Wanted(doc, category, minPrice, maxPrice, level)
  {
    var f := ListFilter(category, minPrice, maxPrice, level);
    if minPrice.Some? || maxPrice.Some? {
      PriceFilterMeaning(doc, minPrice, maxPrice);
      assert ConditionHolds(FieldOf(doc, "price"), f["price"]);
    }
    if TruthyText(category) {
      assert ConditionHolds(FieldOf(doc, "category"), f["category"]);
    }
    if TruthyText(level) {
      assert ConditionHolds(FieldOf(doc, "level"), f["level"]);
    }
  }

  /** A wanted product matches the listing filter. */
  lemma ListFilterComplete(doc: Document, category: Option<string>, minPrice: Option<real>,
                           maxPrice: Option<real>, level: Option<string>)
    requires Wanted(doc, category, minPrice, maxPrice, level)
    ensures Matches(doc, ListFilter(category, minPrice, maxPrice, level))
  {
    var f := ListFilter(category, minPrice, maxPrice, level);
    forall key | key in f
      ensures ConditionHolds(FieldOf(doc, key), f[key])
    {
      if key == "price" {
        PriceFilterMeaning(doc, minPrice, maxPrice);
      }
    }
  }

  /** Under the store's filter semantics, the listing filter selects exactly
      the wanted products. */
  lemma ListFilterMeaning(doc: Document, category: Option<string>, minPrice: Option<real>,
                          maxPrice: Option<real>, level: Option<string>)
    ensures Matches(doc, ListFilter(category, minPrice, maxPrice, level))
            <==> Wanted(doc, category, minPrice, maxPrice, level)
  {
    if Matches(doc, ListFilter(category, minPrice, maxPrice, level)) {
      ListFilterSound(doc, category, minPrice, maxPrice, level);
    }
    if Wanted(doc, category, minPrice, maxPrice, level) {
      ListFilterComplete(doc, category, minPrice, maxPrice, level);
    }
  }

  /** Turning the identifier into a string does not change whether a product
      is wanted. */
  lemma WantedIgnoresId(d: Document, category: Option<string>, minPrice: Option<real>,
                        maxPrice: Option<real>, level: Option<string>)
    requires StoredDoc(d)
    ensures Wanted(StringifyId(d), category, minPrice, maxPrice, level)
            <==> Wanted(d, category, minPrice, maxPrice, level)
  {
    assert FieldOf(StringifyId(d), "category") == FieldOf(d, "category");
    assert FieldOf(StringifyId(d), "level") == FieldOf(d, "level");
    assert PriceOf(StringifyId(d)) == PriceOf(d);
  }

  /** Every product a listing returns is wanted: with min_price 10 and
      max_price 20, every price returned lies between 10 and 20. */
  lemma ListedProductsWanted(docs: seq<Document>, category: Option<string>, minPrice: Option<real>,
                             maxPrice: Option<real>, level: Option<string>, limit: int)
    requires AllStored(docs)
    ensures forall d | d in Found(docs, Some(ListFilter(category, minPrice, maxPrice, level)), limit) ::
              Wanted(d, category, minPrice, maxPrice, level)
  {
    var f := ListFilter(category, minPrice, maxPrice, level);
    var found := Found(docs, Some(f), limit);
    var selected := Select(docs, f);
    forall d | d in found
      ensures Wanted(d, category, minPrice, maxPrice, level)
    {
      var i :| 0 <= i < |found| && found[i] == d;
      ListFilterMeaning(selected[i], category, minPrice, maxPrice, level);
      WantedIgnoresId(selected[i], category, minPrice, maxPrice, level);
    }
  }

  /** With no limit, every wanted product is listed. */
  lemma WantedProductsListed(docs: seq<Document>, category: Option<string>, minPrice: Option<real>,
                             maxPrice: Option<real>, level: Option<string>)
    requires AllStored(docs)
    ensures forall d | d in docs && Wanted(d, category, minPrice, maxPrice, level) ::
              StringifyId(d) in Found(docs, Some(ListFilter(category, minPrice, maxPrice, level)), 0)
  {
    var f := ListFilter(category, minPrice, maxPrice, level);
    var found := Found(docs, Some(f), 0);
    var selected := Select(docs, f);
    forall d | d in docs && Wanted(d, category, minPrice, maxPrice, level)
      ensures StringifyId(d) in found
    {
      ListFilterMeaning(d, category, minPrice, maxPrice, level);
      SelectComplete(docs, f, d);
      var i :| 0 <= i < |selected| && selected[i] == d;
      assert found[i] == StringifyId(d);
    }
  }

  /** `list_products`: the matching products of the "product" collection. */
  method ListProducts(store: DocumentStore, category: Option<string>, minPrice: Option<real>,
                      maxPrice: Option<real>, level: Option<string>, limit: int)
    returns (items: seq<Document>)
    requires store.Valid()
    modifies store`client, store`db, store`clientsCreated
    ensures store.Valid() && store.db != null
    ensures old(store.db) != null ==> store.db == old(store.db)
    ensures items == Found(store.Docs("product"), Some(ListFilter(category, minPrice, maxPrice, level)), limit)
  {
    var filter := BuildFilter(category, minPrice, maxPrice, level);
    items := store.GetDocuments("product", Some(filter), limit);
  }

  // ------------------------------------------------------------- get_product

  function SlugFilter(slug: string): Document
  {
    map["slug" := VStr(slug)]
  }

  lemma SlugFilterMeaning(doc: Document, slug: string)
    ensures Matches(doc, SlugFilter(slug)) <==> FieldOf(doc, "slug") == Some(VStr(slug))
  {
    assert "slug" in SlugFilter(slug);
  }

  /** The first document of the sequence that a filter selects. */
  lemma {:induction false} SelectFirst(docs: seq<Document>, filter: Document)
    requires Select(docs, filter) != []
    ensures exists i | 0 <= i < |docs| ::
              && docs[i] == Select(docs, filter)[0]
              && Matches(docs[i], filter)
              && forall j | 0 <= j < i :: !Matches(docs[j], filter)
  {
    if !Matches(docs[0], filter) {
      SelectFirst(docs[1..], filter);
      var i :| 0 <= i < |docs[1..]| && docs[1..][i] == Select(docs[1..], filter)[0]
               && Matches(docs[1..][i], filter)
               && forall j | 0 <= j < i :: !Matches(docs[1..][j], filter);
      assert docs[i + 1] == Select(docs, filter)[0];
      assert forall j | 0 <= j < i + 1 :: !Matches(docs[j], filter) by {
        forall j | 0 <= j < i + 1 ensures !Matches(docs[j], filter) {
          if j > 0 { assert docs[j] == docs[1..][j - 1]; }
        }
      }
    } else {
      assert docs[0] == Select(docs, filter)[0];
    }
  }

  /** What `get_product` answers for the documents of the "product"
      collection: 404 exactly when no product has the slug, and otherwise
      the first product that has it, with its identifier as a string. */
  function ProductBySlug(docs: seq<Document>, slug: string): (r: Result<Document, HttpError>)
    requires AllStored(docs)
    ensures r.Err? <==> forall d | d in docs :: FieldOf(d, "slug") != Some(VStr(slug))
    ensures r.Err? ==> r.error == NotFound
    ensures r.Ok? ==>
              exists i | 0 <= i < |docs| ::
                && FieldOf(docs[i], "slug") == Some(VStr(slug))
                && StoredDoc(docs[i])
                && r.value == StringifyId(docs[i])
                && forall j | 0 <= j < i :: FieldOf(docs[j], "slug") != Some(VStr(slug))
  {
    var items := Found(docs, Some(SlugFilter(slug)), 1);
    if items == [] then
      assert forall d | d in docs :: FieldOf(d, "slug") != Some(VStr(slug)) by {
        forall d | d in docs ensures FieldOf(d, "slug") != Some(VStr(slug)) {
          SlugFilterMeaning(d, slug);
          if Matches(d, SlugFilter(slug)) {
            SelectComplete(docs, SlugFilter(slug), d);
          }
        }
      }
      Err(NotFound)
    else
      SelectFirst(docs, SlugFilter(slug));
      assert forall d | d in docs :: Matches(d, SlugFilter(slug)) <==> FieldOf(d, "slug") == Some(VStr(slug)) by {
        forall d | d in docs ensures Matches(d, SlugFilter(slug)) <==> FieldOf(d, "slug") == Some(VStr(slug)) {
          SlugFilterMeaning(d, slug);
        }
      }
      Ok(items[0])
  }

  /** `get_product`: look the slug up with limit 1. */
  method GetProduct(store: DocumentStore, slug: string) returns (r: Result<Document, HttpError>)
    requires store.Valid()
    modifies store`client, store`db, store`clientsCreated
    ensures store.Valid() && store.db != null
    ensures old(store.db) != null ==> store.db == old(store.db)
    ensures r == ProductBySlug(store.Docs("product"), slug)
  {
    var items := store.GetDocuments("product", Some(SlugFilter(slug)), 1);
    if items == [] {
      r := Err(NotFound);
    } else {
      r := Ok(items[0]);
    }
  }

  // ---------------------------------------------------------- create_product

  /** `create_product`: the validated product is stored unchanged, as
      `model_dump()` gives it, in the "product" collection. */
  method CreateProduct(store: DocumentStore, product: Product, now: string) returns (record: Document)
    requires store.Valid()
    modifies store
    ensures var stored := Inserted(ProductDump(product), now, old(store.nextId));
            && record == StringifyId(stored)
            && store.collections == old(store.collections)["product" := old(store.Docs("product")) + [stored]]
    ensures store.nextId == old(store.nextId) + 1
    ensures old(store.db) != null ==> store.db == old(store.db)
    ensures store.Valid() && store.db != null
  {
    var data := ProductDump(product);
    ProductDumpLeavesStoreFields(product);
    record := store.CreateDocument("product", data, now);
  }

  /** A product created where no product had its slug is what a later
      lookup of that slug returns. */
  lemma CreatedProductIsFound(docs: seq<Document>, stored: Document, slug: string)
    requires AllStored(docs) && StoredDoc(stored)
    requires FieldOf(stored, "slug") == Some(VStr(slug))
    requires forall d | d in docs :: FieldOf(d, "slug") != Some(VStr(slug))
    ensures ProductBySlug(docs + [stored], slug) == Ok(StringifyId(stored))
  {
    var f := SlugFilter(slug);
    assert Select(docs, f) == [] by {
      if Select(docs, f) != [] {
        var d := Select(docs, f)[0];
        SlugFilterMeaning(d, slug);
        assert false;
      }
    }
    SelectAppend(docs, stored, f);
    SlugFilterMeaning(stored, slug);
    assert Select(docs + [stored], f) == [stored];
  }

  /** The stored document of a created product carries its slug. */
  lemma StoredSlug(p: Product, now: string, id: nat)
    ensures FieldOf(Inserted(ProductDump(p), now, id), "slug") == Some(VStr(p.slug))
  {
    DumpScalarsRead(p);
  }

  /** The two timestamps do not change how a document reads back. */
  lemma StampsIgnored(data: Document, now: string)
    ensures ProductFromDocument(Stamped(data, now)) == ProductFromDocument(data)
  {
    ReadIgnoresOtherField(data["created_at" := VStr(now)], "updated_at", VStr(now));
    ReadIgnoresOtherField(data, "created_at", VStr(now));
  }

  /** The identifier, stored or stringified, does not change how a document
      reads back. */
  lemma IdIgnored(doc: Document, v: Value)
    ensures ProductFromDocument(doc["_id" := v]) == ProductFromDocument(doc)
  {
    ReadIgnoresOtherField(doc, "_id", v);
  }

  /** Storing a document and stringifying its identifier does not change
      how it reads back as a product: the store only writes `_id`,
      `created_at` and `updated_at`. */
  lemma StoredReadsBack(data: Document, now: string, id: nat)
    ensures ProductFromDocument(StringifyId(Inserted(data, now, id))) == ProductFromDocument(data)
  {
    var stamped := Stamped(data, now);
    var stored := stamped["_id" := VOid(id)];
    StampsIgnored(data, now);
    IdIgnored(stamped, VOid(id));
    IdIgnored(stored, VStr(ObjectIds.Text(id)));
  }

  /** The stored record of a created product reads back field for field as
      that product. */
  lemma CreatedProductReadsBack(p: Product, now: string, id: nat)
    ensures ProductFromDocument(StringifyId(Inserted(ProductDump(p), now, id))) == Some(p)
  {
    StoredReadsBack(ProductDump(p), now, id);
    ProductDumpReadsBack(p);
  }

  /** Creating a product and then fetching its slug gives back the created
      record, field for field, when no earlier product had that slug. */
  method CreateThenFetch(store: DocumentStore, product: Product, now: string)
    returns (created: Document, fetched: Result<Document, HttpError>)
    requires store.Valid()
    requires forall d | d in store.Docs("product") :: FieldOf(d, "slug") != Some(VStr(product.slug))
    modifies store
    ensures store.Valid()
    ensures fetched == Ok(created)
    ensures ProductFromDocument(created) == Some(product)
  {
    ghost var before := store.Docs("product");
    ghost var id := store.nextId;
    created := CreateProduct(store, product, now);
    fetched := GetProduct(store, product.slug);
    StoredSlug(product, now, id);
    CreatedProductIsFound(before, Inserted(ProductDump(product), now, id), product.slug);
    CreatedProductReadsBack(product, now, id);
  }

  // ---------------------------------------------------------------- checkout

  /** The order dictionary `checkout` stores: status "paid", the submitted
      download URL when it is non-empty and otherwise the default link for
      the product, everything else as submitted. */
  function PaidOrder(o: Order): (r: Document)
    ensures r.Keys == OrderFields
    ensures r["status"] == VStr("paid")
    ensures TruthyText(o.downloadUrl) ==> r["download_url"] == VStr(o.downloadUrl.value)
    ensures !TruthyText(o.downloadUrl) ==> r["download_url"] == VStr(DownloadPrefix + o.productId)
    ensures OrderFromDocument(r) == Some(Settled(o))
  {
    var url := if TruthyText(o.downloadUrl) then o.downloadUrl.value else DownloadPrefix + o.productId;
    assert OrderDump(Settled(o)) == OrderDump(o)["status" := VStr("paid")]["download_url" := VStr(url)];
    OrderDump(Settled(o))
  }

  /** The order as it is recorded: paid, with a download link. */
  function Settled(o: Order): (s: Order)
    ensures s.status == Paid && s.downloadUrl.Some?
    ensures s.productId == o.productId && s.email == o.email && s.amount == o.amount
  {
    o.(status := Paid,
       downloadUrl := Some(if TruthyText(o.downloadUrl) then o.downloadUrl.value else DownloadPrefix + o.productId))
  }

  /** Checking out an order that was already settled stores the same
      dictionary again. */
  lemma {:induction false} CheckoutIdempotent(o: Order)
    ensures PaidOrder(Settled(o)) == PaidOrder(o)
  {
    assert Settled(Settled(o)) == Settled(o);
  }

  /** `checkout`: the validated order is rewritten in place (status, then
      download URL) and stored in the "order" collection. */
  method Checkout(store: DocumentStore, order: Order, now: string) returns (record: Document)
    requires store.Valid()
    modifies store
    ensures var stored := Inserted(PaidOrder(order), now, old(store.nextId));
            && record == StringifyId(stored)
            && store.collections == old(store.collections)["order" := old(store.Docs("order")) + [stored]]
    ensures store.nextId == old(store.nextId) + 1
    ensures old(store.db) != null ==> store.db == old(store.db)
    ensures store.Valid() && store.db != null
  {
    var paid := OrderDump(order);
    paid := paid["status" := VStr("paid")];
    var current := if "download_url" in paid then paid["download_url"] else VNull;
    paid := paid["download_url" := if Truthy(current) then current else VStr(DownloadPrefix + paid["product_id"].s)];
    assert paid == PaidOrder(order);
    record := store.CreateDocument("order", paid, now);
  }
}
