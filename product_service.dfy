/**
 * The product service: products and their images held in two tables, each operation a
 * method that reads and updates them the way the service's repository calls do. Every
 * operation that starts with `findOne` counts a view first, even when it then fails.
 */
module ProductService {
  import opened Wrappers
  import opened JsStrings
  import opened Products

  const ProductNotFound := "Product not found"
  const ImageNotFound := "Image not found"
  const TooManyImages := "Maximum 6 images allowed per product"
  const InvalidPromotionType := "Invalid promotion type"
  const NotPromoted := "Product is not promoted"
  const MaxImagesPerUpload := 6

  function UnknownImage(id: string): string {
    "Image with id " + id + " not found"
  }

  /** `findOne` finds only active products. */
  predicate Visible(products: map<string, Product>, id: string) {
    id in products && products[id].is_active
  }

  /** What the loop of `uploadProductImages` leaves behind, from the image table `m`. */
  ghost predicate Uploaded(m: Images, productId: string, uploads: seq<Result<StoredFile>>, ids: seq<string>,
                           m': Images, r: Result<seq<ProductImage>>)
  {
    |ids| == |uploads| &&
    match FirstFailed(uploads)
    case Some(k) => r == Err(uploads[k].error) && m' == Added(m, productId, uploads, ids, k)
    case None =>
      m' == Added(m, productId, uploads, ids, |uploads|) &&
      r.Ok? && |r.value| == |uploads| &&
      forall i :: 0 <= i < |uploads| ==> r.value[i] == NewImage(ids[i], productId, uploads[i].value, i)
  }

  /**
   * The loop of `uploadProductImages` over the image table `m`: the `i`-th stored file becomes
   * image `ids[i]` at position `i`, and the first failed upload stops the loop with its error.
   */
  method SaveUploads(m: Images, productId: string, uploads: seq<Result<StoredFile>>, ids: seq<string>)
    returns (table: Images, r: Result<seq<ProductImage>>)
    requires |ids| == |uploads| && KeyedById(m)
    ensures KeyedById(table)
    ensures Uploaded(m, productId, uploads, ids, table, r)
  {
    table := m;
    var saved: seq<ProductImage> := [];
    for i := 0 to |uploads|
      invariant forall j :: 0 <= j < i ==> uploads[j].Ok?
      invariant table == Added(m, productId, uploads, ids, i)
      invariant |saved| == i
      invariant forall j :: 0 <= j < i ==> saved[j] == NewImage(ids[j], productId, uploads[j].value, j)
    {
      if uploads[i].Err? {
        AddedIds(m, productId, uploads, ids, i);
        return table, Err(uploads[i].error);
      }
      var image := ProductImage(ids[i], productId, uploads[i].value, i, i == 0);
      table := table[ids[i] := image];
      saved := saved + [image];
    }
    AddedIds(m, productId, uploads, ids, |uploads|);
    return table, Ok(saved);
  }

  /** What the loop of `reorderImages` leaves behind, from the image table `m`. */
  ghost predicate Repositioned(m: Images, productId: string, imageIds: seq<string>, m': Images, r: Result<seq<ProductImage>>) {
    match FirstUnknown(m, productId, imageIds)
    case Some(k) => r == Err(NotFound(UnknownImage(imageIds[k]))) && m' == Reordered(m, imageIds, k)
    case None =>
      m' == Reordered(m, imageIds, |imageIds|) && r == Ok(Listed(m, imageIds, |imageIds|))
  }

  /** The loop stops at position `i`, the first that names no image of the product. */
  lemma RepositionedAtUnknown(m: Images, productId: string, imageIds: seq<string>, i: nat)
    requires i < |imageIds| && !IsImageOf(m, imageIds[i], productId)
    requires forall j :: 0 <= j < i ==> IsImageOf(m, imageIds[j], productId)
    ensures Repositioned(m, productId, imageIds, Reordered(m, imageIds, i), Err(NotFound(UnknownImage(imageIds[i]))))
  {
    FirstUnknownAt(m, productId, imageIds, i);
  }

  /** The loop runs to the end when every position names an image of the product. */
  lemma RepositionedAll(m: Images, productId: string, imageIds: seq<string>, table: Images, saved: seq<ProductImage>)
    requires forall j :: 0 <= j < |imageIds| ==> IsImageOf(m, imageIds[j], productId)
    requires forall j :: 0 <= j < |imageIds| ==> imageIds[j] in m
    requires table == Reordered(m, imageIds, |imageIds|) && saved == Listed(m, imageIds, |imageIds|)
    ensures Repositioned(m, productId, imageIds, table, Ok(saved))
  {
    FirstUnknownAt(m, productId, imageIds, |imageIds|);
  }

  /**
   * The loop of `reorderImages` over the image table `m`: each listed image of the product is
   * saved at its position, and the first id that is not one stops the loop with NotFound. The
   * table returned is the one the saves have left behind at that point.
   */
  method SavePositions(m: Images, productId: string, imageIds: seq<string>)
    returns (table: Images, r: Result<seq<ProductImage>>)
    requires KeyedById(m)
    ensures KeyedById(table)
    ensures Repositioned(m, productId, imageIds, table, r)
  {
    table := m;
    var saved: seq<ProductImage> := [];
    for i := 0 to |imageIds|
      invariant forall j :: 0 <= j < i ==> IsImageOf(m, imageIds[j], productId) && imageIds[j] in m
      invariant table == Reordered(m, imageIds, i)
      invariant saved == Listed(m, imageIds, i)
    {
      if !(imageIds[i] in table && table[imageIds[i]].product_id == productId) {
        ReorderedSaveStep(m, imageIds, i, productId);
        RepositionedAtUnknown(m, productId, imageIds, i);
        ReorderedIds(m, imageIds, i);
        return table, Err(NotFound(UnknownImage(imageIds[i])));
      }
      ReorderedAdvance(m, imageIds, i, productId, table, saved);
      var image := Positioned(table[imageIds[i]], i);
      table := table[imageIds[i] := image];
      saved := saved + [image];
    }
    RepositionedAll(m, productId, imageIds, table, saved);
    ReorderedIds(m, imageIds, |imageIds|);
    return table, Ok(saved);
  }

  datatype Stats = Stats(views_count: int, favorites_count: int, likes_count: int, calls_count: int, contacts_count: int)

  class ProductService {
    var products: map<string, Product>
    var images: Images

    /** Rows are stored under their own ids and no counter is negative. */
    ghost predicate Valid()
      reads this
    {
      (forall id :: id in products ==> products[id].id == id && CountersNonNegative(products[id])) &&
      (forall id :: id in images ==> images[id].id == id)
    }

    constructor ()
      ensures Valid() && products == map[] && images == map[]
    {
      products := map[];
      images := map[];
    }

    /**
     * `create`: a new row owned by `userId`, with the request's `is_active`; the listing id is
     * drawn by the caller. A product created with `is_active: false` is never visible to `findOne`.
     */
    method Create(newId: string, userId: string, listingId: string, isActive: Option<bool>) returns (p: Product)
      requires Valid() && newId !in products
      modifies this
      ensures Valid()
      ensures p == NewProduct(newId, userId, listingId, isActive) && products == old(products)[newId := p]
      ensures Visible(products, newId) <==> isActive != Some(false)
      ensures images == old(images)
    {
      p := NewProduct(newId, userId, listingId, isActive);
      products := products[newId := p];
    }

    /** `findOne`: an active product gets one more view and is returned; anything else is NotFound. */
    method FindOne(id: string) returns (r: Result<Product>)
      requires Valid()
      modifies this
      ensures Valid()
      ensures Visible(old(products), id) ==>
        r == Ok(Viewed(old(products)[id])) && products == old(products)[id := r.value]
      ensures !Visible(old(products), id) ==> r == Err(NotFound(ProductNotFound)) && products == old(products)
      ensures images == old(images)
    {
      if !(id in products && products[id].is_active) {
        return Err(NotFound(ProductNotFound));
      }
      var product := products[id];
      product := product.(views_count := product.views_count + 1);
      products := products[id := product];
      return Ok(product);
    }

    /**
     * `uploadProductImages`: `uploads[i]` is what storing the `i`-th file gave, `newIds[i]` the id
     * the new image row receives. Images are saved one by one; a failed upload stops the loop
     * with the earlier images kept.
     */
    method UploadProductImages(productId: string, uploads: seq<Result<StoredFile>>, newIds: seq<string>)
      returns (r: Result<seq<ProductImage>>)
      requires Valid() && |newIds| == |uploads| && Fresh(images, newIds)
      modifies this
      ensures Valid()
      ensures !Visible(old(products), productId) ==>
        r == Err(NotFound(ProductNotFound)) && products == old(products) && images == old(images)
      ensures Visible(old(products), productId) ==> products == old(products)[productId := Viewed(old(products)[productId])]
      ensures Visible(old(products), productId) && |uploads| > MaxImagesPerUpload ==>
        r == Err(BadRequest(TooManyImages)) && images == old(images)
      ensures Visible(old(products), productId) && |uploads| <= MaxImagesPerUpload ==>
        Uploaded(old(images), productId, uploads, newIds, images, r)
    {
      var found := FindOne(productId);
      if found.Err? {
        return Err(found.error);
      }
      if |uploads| > MaxImagesPerUpload {
        return Err(BadRequest(TooManyImages));
      }
      var table;
      table, r := SaveUploads(images, productId, uploads, newIds);
      images := table;
    }

    /** `setMainImage`: clear the flag on all the product's images, then set it on the chosen one. */
    method SetMainImage(productId: string, imageId: string) returns (r: Result<ProductImage>)
      requires Valid()
      modifies this
      ensures Valid()
      ensures !Visible(old(products), productId) ==>
        r == Err(NotFound(ProductNotFound)) && products == old(products) && images == old(images)
      ensures Visible(old(products), productId) ==> products == old(products)[productId := Viewed(old(products)[productId])]
      ensures Visible(old(products), productId) && !IsImageOf(old(images), imageId, productId) ==>
        r == Err(NotFound(ImageNotFound)) && images == ClearedMain(old(images), productId)
      ensures Visible(old(products), productId) && IsImageOf(old(images), imageId, productId) ==>
        r == Ok(old(images)[imageId].(is_main := true)) &&
        images == ClearedMain(old(images), productId)[imageId := r.value]
    {
      var found := FindOne(productId);
      if found.Err? {
        return Err(found.error);
      }
      images := ClearedMain(images, productId);
      if !(imageId in images && images[imageId].product_id == productId) {
        return Err(NotFound(ImageNotFound));
      }
      var image := images[imageId].(is_main := true);
      images := images[imageId := image];
      return Ok(image);
    }

    /**
     * `deleteProductImage`: remove the image; if it was main, the remaining image of the product
     * first in `order_index` order becomes main. This operation does not go through `findOne`.
     */
    method DeleteProductImage(productId: string, imageId: string) returns (r: Result<()>)
      requires Valid()
      modifies this
      ensures Valid()
      ensures products == old(products)
      ensures !IsImageOf(old(images), imageId, productId) ==> r == Err(NotFound(ImageNotFound)) && images == old(images)
      ensures IsImageOf(old(images), imageId, productId) ==> r == Ok(())
      ensures IsImageOf(old(images), imageId, productId) &&
              (!old(images)[imageId].is_main || !exists k :: IsImageOf(old(images) - {imageId}, k, productId)) ==>
        images == old(images) - {imageId}
      ensures IsImageOf(old(images), imageId, productId) && old(images)[imageId].is_main &&
              (exists k :: IsImageOf(old(images) - {imageId}, k, productId)) ==>
        exists k :: Lowest(old(images) - {imageId}, productId, k) &&
          images == (old(images) - {imageId})[k := old(images)[k].(is_main := true)]
    {
      if !(imageId in images && images[imageId].product_id == productId) {
        return Err(NotFound(ImageNotFound));
      }
      var image := images[imageId];
      images := images - {imageId};
      if image.is_main {
        var remaining := set k | k in images && images[k].product_id == productId;
        if remaining != {} {
          LowestOfSet(images, remaining);
          var first :| first in remaining && forall j :: j in remaining ==> images[first].order_index <= images[j].order_index;
          assert Lowest(images, productId, first);
          images := images[first := images[first].(is_main := true)];
        } else {
          assert !exists k :: IsImageOf(images, k, productId);
        }
      }
      return Ok(());
    }

    /**
     * `reorderImages`: position `i` of `imageIds` gets `order_index` `i` and is main exactly at
     * position 0; an id that is not an image of the product stops the loop with the earlier
     * positions saved.
     */
    method ReorderImages(productId: string, imageIds: seq<string>) returns (r: Result<seq<ProductImage>>)
      requires Valid()
      modifies this
      ensures Valid()
      ensures !Visible(old(products), productId) ==>
        r == Err(NotFound(ProductNotFound)) && products == old(products) && images == old(images)
      ensures Visible(old(products), productId) ==>
        products == old(products)[productId := Viewed(old(products)[productId])] &&
        Repositioned(old(images), productId, imageIds, images, r)
    {
      var found := FindOne(productId);
      if found.Err? {
        return Err(found.error);
      }
      var table;
      table, r := SavePositions(images, productId, imageIds);
      images := table;
    }

    /** `remove`: delete the product's images and deactivate it, so `findOne` fails from then on. */
    method Remove(id: string) returns (r: Result<()>)
      requires Valid()
      modifies this
      ensures Valid()
      ensures !Visible(old(products), id) ==>
        r == Err(NotFound(ProductNotFound)) && products == old(products) && images == old(images)
      ensures Visible(old(products), id) ==>
        r == Ok(()) && products == old(products)[id := Viewed(old(products)[id]).(is_active := false)] &&
        images == WithoutImagesOf(old(images), id)
      ensures !Visible(products, id)
    {
      var found := FindOne(id);
      if found.Err? {
        return Err(found.error);
      }
      images := WithoutImagesOf(images, id);
      var product := found.value.(is_active := false);
      products := products[id := product];
      return Ok(());
    }

    /** One engagement operation: `findOne`, then the counter change, then save. */
    method Engage(id: string, e: Engagement) returns (r: Result<Product>)
      requires Valid()
      modifies this
      ensures Valid()
      ensures !Visible(old(products), id) ==> r == Err(NotFound(ProductNotFound)) && products == old(products)
      ensures Visible(old(products), id) ==>
        r == Ok(Engaged(Viewed(old(products)[id]), e)) && products == old(products)[id := r.value]
      ensures images == old(images)
    {
      var found := FindOne(id);
      if found.Err? {
        return found;
      }
      var product := Engaged(found.value, e);
      products := products[id := product];
      return Ok(product);
    }

    /** `getProductStats`: the counters after `findOne` has counted this view. */
    method GetProductStats(id: string) returns (r: Result<Stats>)
      requires Valid()
      modifies this
      ensures Valid()
      ensures !Visible(old(products), id) ==> r == Err(NotFound(ProductNotFound)) && products == old(products)
      ensures Visible(old(products), id) ==>
        products == old(products)[id := Viewed(old(products)[id])] &&
        var p := old(products)[id];
        r == Ok(Stats(p.views_count + 1, p.favorites_count, p.likes_count, p.calls_count, p.contacts_count))
      ensures images == old(images)
    {
      var found := FindOne(id);
      if found.Err? {
        return Err(found.error);
      }
      var p := found.value;
      return Ok(Stats(p.views_count, p.favorites_count, p.likes_count, p.calls_count, p.contacts_count));
    }

    /**
     * `createPromotion`: the option table gives price and features, the request the duration.
     * `endMs` is the start date moved on by `durationDays` calendar days.
     */
    method CreatePromotion(productId: string, promotionType: string, durationDays: int, nowMs: int, endMs: int)
      returns (r: Result<Product>)
      requires Valid()
      modifies this
      ensures Valid()
      ensures !Visible(old(products), productId) ==> r == Err(NotFound(ProductNotFound)) && products == old(products)
      ensures Visible(old(products), productId) && PromotionOptionFor(promotionType).None? ==>
        r == Err(BadRequest(InvalidPromotionType)) &&
        products == old(products)[productId := Viewed(old(products)[productId])]
      ensures Visible(old(products), productId) && PromotionOptionFor(promotionType).Some? ==>
        r == Ok(Promoted(Viewed(old(products)[productId]), promotionType, PromotionOptionFor(promotionType).value,
                         durationDays, nowMs, endMs)) &&
        products == old(products)[productId := r.value]
      ensures images == old(images)
    {
      var found := FindOne(productId);
      if found.Err? {
        return found;
      }
      var selected := PromotionOptionFor(promotionType);
      if selected.None? {
        return Err(BadRequest(InvalidPromotionType));
      }
      var product := Promoted(found.value, promotionType, selected.value, durationDays, nowMs, endMs);
      products := products[productId := product];
      return Ok(product);
    }

    /** `cancelPromotion`: only a promoted product; every promotion column is reset. */
    method CancelPromotion(productId: string) returns (r: Result<Product>)
      requires Valid()
      modifies this
      ensures Valid()
      ensures !Visible(old(products), productId) ==> r == Err(NotFound(ProductNotFound)) && products == old(products)
      ensures Visible(old(products), productId) && !old(products)[productId].is_promoted ==>
        r == Err(BadRequest(NotPromoted)) && products == old(products)[productId := Viewed(old(products)[productId])]
      ensures Visible(old(products), productId) && old(products)[productId].is_promoted ==>
        r == Ok(Unpromoted(Viewed(old(products)[productId]))) && products == old(products)[productId := r.value]
      ensures images == old(images)
    {
      var found := FindOne(productId);
      if found.Err? {
        return found;
      }
      if !found.value.is_promoted {
        return Err(BadRequest(NotPromoted));
      }
      var product := Unpromoted(found.value);
      products := products[productId := product];
      return Ok(product);
    }
  }
}
