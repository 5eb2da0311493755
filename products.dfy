/**
 * The product and product-image tables as the product service sees them, the fixed table of
 * promotion options, page arithmetic, and the pure state changes the service's operations
 * are specified by.
 */
module Products {
  import opened Wrappers
  import opened Arith

  // ---------------------------------------------------------------- records

  /** The columns of a product the service reads or writes (prices are in whole sum). */
  datatype Product = Product(
    id: string,
    created_by_id: string,
    listing_id: string,
    is_active: bool,
    views_count: int,
    favorites_count: int,
    likes_count: int,
    calls_count: int,
    contacts_count: int,
    is_promoted: bool,
    promotion_type: Option<string>,
    promotion_start_date: Option<int>,
    promotion_end_date: Option<int>,
    promotion_price: Option<int>,
    promotion_duration_days: Option<int>,
    has_large_photo: bool,
    has_premium_badge: bool,
    has_photo_gallery: bool,
    has_direct_contacts: bool)

  /** What the file-upload service reports for a stored image. */
  datatype StoredFile = StoredFile(filename: string, original_name: string, mime_type: string, size: int)

  datatype ProductImage = ProductImage(
    id: string,
    product_id: string,
    file: StoredFile,
    order_index: int,
    is_main: bool)

  /**
   * A new row: every counter 0 and not promoted (the column defaults). The request's optional
   * `is_active` is spread into the row; when absent, the column default `true` applies.
   */
  function NewProduct(id: string, createdBy: string, listingId: string, isActive: Option<bool>): Product {
    Product(id, createdBy, listingId, isActive.GetOr(true), 0, 0, 0, 0, 0,
            false, None, None, None, None, None, false, false, false, false)
  }

  predicate CountersNonNegative(p: Product) {
    p.views_count >= 0 && p.favorites_count >= 0 && p.likes_count >= 0 &&
    p.calls_count >= 0 && p.contacts_count >= 0
  }

  // ---------------------------------------------------------------- pagination

  const DefaultPage := 1
  const DefaultLimit := 10

  datatype Pagination = Pagination(page: int, limit: int, total: nat, totalPages: nat, hasNext: bool, hasPrev: bool)

  datatype Page<T> = Page(data: seq<T>, pagination: Pagination)

  /** `(page - 1) * limit`. */
  function Skip(page: int, limit: int): int {
    (page - 1) * limit
  }

  /** `rows[from..to]` with both ends clamped to the rows, as `skip`/`take` read a result set. */
  function Window<T>(rows: seq<T>, from: int, to: int): (r: seq<T>)
    ensures |r| <= |rows|
  {
    var a := if from < 0 then 0 else if from > |rows| then |rows| else from;
    var b := if to < a then a else if to > |rows| then |rows| else to;
    rows[a..b]
  }

  /**
   * `paginateQuery` over the rows its query matches, in the query's order; an absent page or
   * limit takes its default.
   */
  function Paginate<T>(rows: seq<T>, page: Option<int>, limit: Option<int>): (r: Page<T>)
    requires page.GetOr(DefaultPage) >= 1 && limit.GetOr(DefaultLimit) >= 1
    ensures r.pagination.page == page.GetOr(DefaultPage) && r.pagination.limit == limit.GetOr(DefaultLimit)
    ensures r.pagination.total == |rows|
    ensures r.pagination.totalPages * r.pagination.limit >= |rows|
    ensures r.pagination.totalPages > 0 ==> (r.pagination.totalPages - 1) * r.pagination.limit < |rows|
    ensures r.pagination.hasNext <==> r.pagination.page < r.pagination.totalPages
    ensures r.pagination.hasPrev <==> r.pagination.page > 1
    ensures |r.data| <= r.pagination.limit
  {
    var p := page.GetOr(DefaultPage);
    var l := limit.GetOr(DefaultLimit);
    var skip := Skip(p, l);
    var totalPages := CeilDiv(|rows|, l);
    Page(Window(rows, skip, skip + l), Pagination(p, l, |rows|, totalPages, p < totalPages, p > 1))
  }

  /** The rows of pages `1..n` one after another. */
  function PagesUpTo<T>(rows: seq<T>, limit: int, n: nat): seq<T>
    requires limit >= 1
  {
    if n == 0 then [] else PagesUpTo(rows, limit, n - 1) + Paginate(rows, Some(n), Some(limit)).data
  }

  lemma {:induction false} PagesUpToPrefix<T>(rows: seq<T>, limit: int, n: nat)
    requires limit >= 1
    ensures PagesUpTo(rows, limit, n) == Window(rows, 0, n * limit)
  {
    if n > 0 {
      PagesUpToPrefix(rows, limit, n - 1);
      assert Skip(n, limit) == (n - 1) * limit;
      assert n * limit == (n - 1) * limit + limit;
      MulMonotonic(0, n - 1, limit);
      var a := Window(rows, 0, (n - 1) * limit);
      var b := Paginate(rows, Some(n), Some(limit)).data;
      assert a + b == Window(rows, 0, n * limit);
    }
  }

  /** Walking the pages in order from 1 to `totalPages` lists every row exactly once, in order. */
  lemma PagesCoverRows<T>(rows: seq<T>, limit: int)
    requires limit >= 1
    ensures PagesUpTo(rows, limit, Paginate(rows, None, Some(limit)).pagination.totalPages) == rows
  {
    var n := Paginate(rows, None, Some(limit)).pagination.totalPages;
    PagesUpToPrefix(rows, limit, n);
  }

  /** Row `j` lies on page `j / limit + 1`, which is a page that exists, and on no other page. */
  lemma RowOnOnePage(total: nat, limit: int, j: nat, page: int)
    requires limit >= 1 && j < total && page >= 1
    ensures 1 <= j / limit + 1 <= CeilDiv(total, limit)
    ensures Skip(page, limit) <= j < Skip(page, limit) + limit <==> page == j / limit + 1
  {
    var q, m := j / limit, j % limit;
    assert j == q * limit + m && 0 <= m < limit;
    RowPageExists(total, limit, j, q);
    RowPageUnique(limit, j, q, m, page);
  }

  lemma RowPageExists(total: nat, limit: int, j: nat, q: int)
    requires limit >= 1 && j < total && q == j / limit
    ensures 1 <= q + 1 <= CeilDiv(total, limit)
  {
    var t := CeilDiv(total, limit);
    assert q * limit <= j;
    if q + 1 > t {
      MulMonotonic(t, q, limit);
    }
  }

  lemma RowPageUnique(limit: int, j: nat, q: int, m: int, page: int)
    requires limit >= 1 && 0 <= m < limit && j == q * limit + m
    ensures Skip(page, limit) <= j < Skip(page, limit) + limit <==> page == q + 1
  {
    var s := Skip(page, limit);
    if s <= j < s + limit {
      FloorOf(j, limit, page - 1, j - s);
      FloorOf(j, limit, q, m);
    }
  }

  // ---------------------------------------------------------------- promotions

  datatype Features = Features(large_photo: bool, premium_badge: bool, photo_gallery: bool, direct_contacts: bool)

  datatype PromotionOption = PromotionOption(price: int, duration: int, features: Features)

  /** `getPromotionOptions()[type]`: the fixed price list, keyed by promotion type. */
  function PromotionOptionFor(promotionType: string): (r: Option<PromotionOption>)
    ensures r.Some? <==> promotionType in {"maxi", "premium", "urgent"}
  {
    if promotionType == "maxi" then Some(PromotionOption(12900, 7, Features(true, true, true, true)))
    else if promotionType == "premium" then Some(PromotionOption(25000, 14, Features(true, true, true, true)))
    else if promotionType == "urgent" then Some(PromotionOption(5000, 3, Features(false, false, false, true)))
    else None
  }

  /** Every option grants direct contacts; urgent grants nothing else and is the cheapest. */
  lemma PromotionTable(t: string)
    requires PromotionOptionFor(t).Some?
    ensures PromotionOptionFor(t).value.features.direct_contacts
    ensures PromotionOptionFor(t).value.price >= PromotionOptionFor("urgent").value.price
    ensures !PromotionOptionFor(t).value.features.large_photo <==> t == "urgent"
    ensures PromotionOptionFor(t).value.price <= PromotionOptionFor("premium").value.price
  {
  }

  /** The product after `createPromotion` has assigned the option's price and features. */
  function Promoted(p: Product, promotionType: string, option: PromotionOption, durationDays: int, startMs: int, endMs: int): Product {
    p.(is_promoted := true, promotion_type := Some(promotionType),
       promotion_start_date := Some(startMs), promotion_end_date := Some(endMs),
       promotion_price := Some(option.price), promotion_duration_days := Some(durationDays),
       has_large_photo := option.features.large_photo, has_premium_badge := option.features.premium_badge,
       has_photo_gallery := option.features.photo_gallery, has_direct_contacts := option.features.direct_contacts)
  }

  /** The product after `cancelPromotion`: every promotion column back to null or false. */
  function Unpromoted(p: Product): Product {
    p.(is_promoted := false, promotion_type := None,
       promotion_start_date := None, promotion_end_date := None,
       promotion_price := None, promotion_duration_days := None,
       has_large_photo := false, has_premium_badge := false,
       has_photo_gallery := false, has_direct_contacts := false)
  }

  /** A product without promotion columns set: what a new row looks like. */
  predicate NeverPromoted(p: Product) {
    !p.is_promoted && p.promotion_type.None? && p.promotion_start_date.None? &&
    p.promotion_end_date.None? && p.promotion_price.None? && p.promotion_duration_days.None? &&
    !p.has_large_photo && !p.has_premium_badge && !p.has_photo_gallery && !p.has_direct_contacts
  }

  /** Cancelling a promotion undoes it completely and leaves every other column as it was. */
  lemma CancelUndoesPromotion(p: Product, t: string, o: PromotionOption, days: int, startMs: int, endMs: int)
    requires NeverPromoted(p)
    ensures Unpromoted(Promoted(p, t, o, days, startMs, endMs)) == p
  {
  }

  /** The price charged is the option's, the duration the requester's, whatever the option lists. */
  lemma PromotionTakesRequestedDuration(p: Product, t: string, days: int, startMs: int, endMs: int)
    requires PromotionOptionFor(t).Some?
    ensures Promoted(p, t, PromotionOptionFor(t).value, days, startMs, endMs).promotion_duration_days == Some(days)
    ensures Promoted(p, t, PromotionOptionFor(t).value, days, startMs, endMs).promotion_price ==
      Some(PromotionOptionFor(t).value.price)
  {
  }

  lemma NewProductNeverPromoted(id: string, createdBy: string, listingId: string, isActive: Option<bool>)
    ensures NeverPromoted(NewProduct(id, createdBy, listingId, isActive))
    ensures CountersNonNegative(NewProduct(id, createdBy, listingId, isActive))
  {
  }

  // ---------------------------------------------------------------- engagement counters

  /** The engagement operations: `addToFavorites`, `removeFromFavorites`, `addLike`, `removeLike`, `addCall`, `addContact`. */
  datatype Engagement = Favorite | Unfavorite | Like | Unlike | Call | Contact

  /** `findOne`'s side effect: one more view. */
  function Viewed(p: Product): Product {
    p.(views_count := p.views_count + 1)
  }

  /** One engagement applied to a product: an add counts up, a removal counts down only from a positive count. */
  function Engaged(p: Product, e: Engagement): (r: Product)
    ensures CountersNonNegative(p) ==> CountersNonNegative(r)
    ensures r.views_count == p.views_count && r.is_active == p.is_active
  {
    match e
    case Favorite => p.(favorites_count := p.favorites_count + 1)
    case Unfavorite => if p.favorites_count > 0 then p.(favorites_count := p.favorites_count - 1) else p
    case Like => p.(likes_count := p.likes_count + 1)
    case Unlike => if p.likes_count > 0 then p.(likes_count := p.likes_count - 1) else p
    case Call => p.(calls_count := p.calls_count + 1)
    case Contact => p.(contacts_count := p.contacts_count + 1)
  }

  /** Removing a favorite or like right after adding one restores the product. */
  lemma RemovalUndoesAdd(p: Product)
    requires CountersNonNegative(p)
    ensures Engaged(Engaged(p, Favorite), Unfavorite) == p
    ensures Engaged(Engaged(p, Like), Unlike) == p
  {
  }

  /** A removal from a count of zero changes nothing. */
  lemma RemovalAtZero(p: Product)
    ensures p.favorites_count <= 0 ==> Engaged(p, Unfavorite) == p
    ensures p.likes_count <= 0 ==> Engaged(p, Unlike) == p
  {
  }

  // ---------------------------------------------------------------- images

  type Images = map<string, ProductImage>

  predicate IsImageOf(m: Images, id: string, productId: string) {
    id in m && m[id].product_id == productId
  }

  /** The ids of a product's images currently flagged main. */
  function MainImagesOf(m: Images, productId: string): set<string> {
    set id | id in m && m[id].product_id == productId && m[id].is_main
  }

  /** The image made for the `i`-th uploaded file. */
  function NewImage(id: string, productId: string, f: StoredFile, i: int): ProductImage {
    ProductImage(id, productId, f, i, i == 0)
  }

  /** The index of the first upload that failed, if any. */
  function FirstFailed(uploads: seq<Result<StoredFile>>): (r: Option<nat>)
    ensures r.Some? ==> r.value < |uploads| && uploads[r.value].Err?
    ensures r.Some? ==> forall j :: 0 <= j < r.value ==> uploads[j].Ok?
    ensures r.None? ==> forall j :: 0 <= j < |uploads| ==> uploads[j].Ok?
  {
    if |uploads| == 0 then None
    else if uploads[0].Err? then Some(0)
    else match FirstFailed(uploads[1..])
      case None => None
      case Some(k) => Some(k + 1)
  }

  /** The image table after the first `n` uploads have been saved under `ids`. */
  function Added(m: Images, productId: string, uploads: seq<Result<StoredFile>>, ids: seq<string>, n: nat): Images
    requires n <= |uploads| && n <= |ids|
    requires forall j :: 0 <= j < n ==> uploads[j].Ok?
  {
    if n == 0 then m
    else Added(m, productId, uploads, ids, n - 1)[ids[n - 1] := NewImage(ids[n - 1], productId, uploads[n - 1].value, n - 1)]
  }

  /** New images are stored under their own ids. */
  lemma {:induction false} AddedIds(m: Images, productId: string, uploads: seq<Result<StoredFile>>, ids: seq<string>, n: nat)
    requires n <= |uploads| && n <= |ids| && KeyedById(m)
    requires forall j :: 0 <= j < n ==> uploads[j].Ok?
    ensures KeyedById(Added(m, productId, uploads, ids, n))
  {
    if n > 0 {
      AddedIds(m, productId, uploads, ids, n - 1);
    }
  }

  ghost predicate Fresh(m: Images, ids: seq<string>) {
    (forall j :: 0 <= j < |ids| ==> ids[j] !in m) && (forall i, j :: 0 <= i < j < |ids| ==> ids[i] != ids[j])
  }

  /** Saving the uploads adds exactly the new images, with their positions, and touches no other image. */
  lemma {:induction false} AddedContents(m: Images, productId: string, uploads: seq<Result<StoredFile>>, ids: seq<string>, n: nat)
    requires n <= |uploads| && n <= |ids| && Fresh(m, ids)
    requires forall j :: 0 <= j < n ==> uploads[j].Ok?
    ensures forall k :: k in Added(m, productId, uploads, ids, n) <==> k in m || k in ids[..n]
    ensures forall k :: k in m ==> Added(m, productId, uploads, ids, n)[k] == m[k]
    ensures forall j :: 0 <= j < n ==>
      Added(m, productId, uploads, ids, n)[ids[j]] == NewImage(ids[j], productId, uploads[j].value, j)
  {
    if n > 0 {
      AddedContents(m, productId, uploads, ids, n - 1);
      assert ids[..n] == ids[..n - 1] + [ids[n - 1]];
    }
  }

  /**
   * An upload batch adds exactly one main image, its first; any image already main stays main.
   * So uploading to a product that already has a main image leaves it with two.
   */
  lemma UploadAddsOneMain(m: Images, productId: string, uploads: seq<Result<StoredFile>>, ids: seq<string>, n: nat)
    requires 0 < n <= |uploads| && n <= |ids| && Fresh(m, ids)
    requires forall j :: 0 <= j < n ==> uploads[j].Ok?
    ensures MainImagesOf(Added(m, productId, uploads, ids, n), productId) == MainImagesOf(m, productId) + {ids[0]}
  {
    var m' := Added(m, productId, uploads, ids, n);
    AddedContents(m, productId, uploads, ids, n);
    forall k | k in MainImagesOf(m', productId) ensures k in MainImagesOf(m, productId) + {ids[0]} {
      if k !in m {
        var j :| 0 <= j < n && ids[..n][j] == k;
        assert m'[ids[j]] == NewImage(ids[j], productId, uploads[j].value, j);
      }
    }
    assert ids[..n][0] == ids[0];
    assert m'[ids[0]] == NewImage(ids[0], productId, uploads[0].value, 0);
  }

  /** `update({ product_id }, { is_main: false })`: no image of the product is main any more. */
  function ClearedMain(m: Images, productId: string): (r: Images)
    ensures r.Keys == m.Keys
    ensures forall k :: k in m && m[k].product_id != productId ==> r[k] == m[k]
    ensures forall k :: k in m && m[k].product_id == productId ==> r[k] == m[k].(is_main := false)
  {
    map k | k in m :: if m[k].product_id == productId then m[k].(is_main := false) else m[k]
  }

  /** After `setMainImage` succeeds exactly the chosen image is main; after it fails, none is. */
  lemma SetMainLeavesOneMain(m: Images, productId: string, imageId: string)
    ensures MainImagesOf(ClearedMain(m, productId), productId) == {}
    ensures IsImageOf(m, imageId, productId) ==>
      var c := ClearedMain(m, productId);
      MainImagesOf(c[imageId := c[imageId].(is_main := true)], productId) == {imageId}
  {
    var c := ClearedMain(m, productId);
    assert forall k :: k in MainImagesOf(c, productId) ==> false;
  }

  /** `k` has the lowest `order_index` among the product's images. */
  ghost predicate Lowest(m: Images, productId: string, k: string) {
    IsImageOf(m, k, productId) && forall j :: IsImageOf(m, j, productId) ==> m[k].order_index <= m[j].order_index
  }

  /** Every image set has an image first in `order_index` order. */
  lemma {:induction false} LowestOfSet(m: Images, s: set<string>)
    requires s != {} && s <= m.Keys
    ensures exists k :: k in s && forall j :: j in s ==> m[k].order_index <= m[j].order_index
    decreases s
  {
    var x :| x in s;
    if s - {x} != {} {
      LowestOfSet(m, s - {x});
      var y :| y in s - {x} && forall j :: j in s - {x} ==> m[y].order_index <= m[j].order_index;
      if m[x].order_index < m[y].order_index {
        assert forall j :: j in s ==> m[x].order_index <= m[j].order_index;
      } else {
        assert forall j :: j in s ==> m[y].order_index <= m[j].order_index;
      }
    } else {
      assert s == {x};
    }
  }

  /** A product that has images has one lowest in `order_index`. */
  lemma LowestExists(m: Images, productId: string, k0: string)
    requires IsImageOf(m, k0, productId)
    ensures exists k :: Lowest(m, productId, k)
  {
    var s := set j | j in m && m[j].product_id == productId;
    assert k0 in s;
    LowestOfSet(m, s);
    var k :| k in s && forall j :: j in s ==> m[k].order_index <= m[j].order_index;
    assert Lowest(m, productId, k);
  }

  /** The index of the first id that is not an image of the product, if any. */
  function FirstUnknown(m: Images, productId: string, ids: seq<string>): (r: Option<nat>)
    ensures r.Some? ==> r.value < |ids| && !IsImageOf(m, ids[r.value], productId)
    ensures r.Some? ==> forall j :: 0 <= j < r.value ==> IsImageOf(m, ids[j], productId)
    ensures r.None? ==> forall j :: 0 <= j < |ids| ==> IsImageOf(m, ids[j], productId)
  {
    if |ids| == 0 then None
    else if !IsImageOf(m, ids[0], productId) then Some(0)
    else match FirstUnknown(m, productId, ids[1..])
      case None => None
      case Some(k) => Some(k + 1)
  }

  /** The first unknown id is the first position whose id is not an image of the product. */
  lemma FirstUnknownAt(m: Images, productId: string, ids: seq<string>, i: nat)
    requires i <= |ids|
    requires forall j :: 0 <= j < i ==> IsImageOf(m, ids[j], productId)
    requires i < |ids| ==> !IsImageOf(m, ids[i], productId)
    ensures FirstUnknown(m, productId, ids) == if i < |ids| then Some(i) else None
  {
    var r := FirstUnknown(m, productId, ids);
    if r.Some? {
      assert r.value >= i;
    }
  }

  /** A product's images with every image of product `productId` removed. */
  function WithoutImagesOf(m: Images, productId: string): (r: Images)
    ensures forall k :: k in r <==> k in m && m[k].product_id != productId
    ensures forall k :: k in r ==> r[k] == m[k]
  {
    map k | k in m && m[k].product_id != productId :: m[k]
  }

  /** An image as position `i` of a reorder saves it: at `order_index` `i`, main only at 0. */
  function Positioned(image: ProductImage, i: int): (r: ProductImage)
    ensures r.id == image.id && r.product_id == image.product_id && r.file == image.file
    ensures r.order_index == i && (r.is_main <==> i == 0)
  {
    image.(order_index := i, is_main := i == 0)
  }

  /** What the first `n` positions of a reorder return: each listed image at its position. */
  function Listed(m: Images, ids: seq<string>, n: nat): (r: seq<ProductImage>)
    requires n <= |ids| && forall j :: 0 <= j < n ==> ids[j] in m
    ensures |r| == n && forall j :: 0 <= j < n ==> r[j] == Positioned(m[ids[j]], j)
  {
    if n == 0 then [] else Listed(m, ids, n - 1) + [Positioned(m[ids[n - 1]], n - 1)]
  }

  /** The image table after the first `n` positions of a reorder have been saved. */
  function Reordered(m: Images, ids: seq<string>, n: nat): (r: Images)
    requires n <= |ids|
    ensures r.Keys == m.Keys
  {
    if n == 0 then m
    else
      var prev := Reordered(m, ids, n - 1);
      if ids[n - 1] in prev then prev[ids[n - 1] := Positioned(prev[ids[n - 1]], n - 1)]
      else prev
  }

  /** A reorder changes only positions and main flags: ids, owners and files stay. */
  lemma {:induction false} ReorderedKeeps(m: Images, ids: seq<string>, n: nat, k: string)
    requires n <= |ids| && k in m
    ensures var r := Reordered(m, ids, n);
      r[k].id == m[k].id && r[k].product_id == m[k].product_id && r[k].file == m[k].file
  {
    if n > 0 {
      ReorderedKeeps(m, ids, n - 1, k);
    }
  }

  /** Saving position `n` of a reorder updates just the image it names. */
  lemma ReorderedNext(m: Images, ids: seq<string>, n: nat)
    requires n < |ids| && ids[n] in m
    ensures var prev := Reordered(m, ids, n);
      Reordered(m, ids, n + 1) == prev[ids[n] := Positioned(prev[ids[n]], n)]
  {
  }

  /** Saving position `i` of a reorder: whether it names an image of the product, and what it writes. */
  lemma ReorderedSaveStep(m: Images, ids: seq<string>, i: nat, productId: string)
    requires i < |ids|
    ensures IsImageOf(Reordered(m, ids, i), ids[i], productId) <==> IsImageOf(m, ids[i], productId)
    ensures ids[i] in m ==>
      Positioned(Reordered(m, ids, i)[ids[i]], i) ==
        Positioned(m[ids[i]], i)
    ensures ids[i] in m ==>
      Reordered(m, ids, i + 1) == Reordered(m, ids, i)[ids[i] := Positioned(m[ids[i]], i)]
  {
    if ids[i] in m {
      ReorderedKeeps(m, ids, i, ids[i]);
      ReorderedNext(m, ids, i);
    }
  }

  /** Every image is stored under its own id. */
  predicate KeyedById(m: Images) {
    forall id :: id in m ==> m[id].id == id
  }

  /** Saving a found position `i` of a reorder moves the table and the returned list on by one. */
  lemma ReorderedAdvance(m: Images, ids: seq<string>, i: nat, productId: string, table: Images, saved: seq<ProductImage>)
    requires i < |ids|
    requires forall j :: 0 <= j < i ==> IsImageOf(m, ids[j], productId) && ids[j] in m
    requires table == Reordered(m, ids, i) && saved == Listed(m, ids, i)
    requires IsImageOf(table, ids[i], productId)
    ensures forall j :: 0 <= j < i + 1 ==> IsImageOf(m, ids[j], productId) && ids[j] in m
    ensures table[ids[i] := Positioned(table[ids[i]], i)] == Reordered(m, ids, i + 1)
    ensures saved + [Positioned(table[ids[i]], i)] == Listed(m, ids, i + 1)
  {
    ReorderedSaveStep(m, ids, i, productId);
  }

  lemma ReorderedIds(m: Images, ids: seq<string>, n: nat)
    requires n <= |ids| && KeyedById(m)
    ensures KeyedById(Reordered(m, ids, n))
  {
    forall k | k in Reordered(m, ids, n) ensures Reordered(m, ids, n)[k].id == k {
      ReorderedKeeps(m, ids, n, k);
    }
  }

  /** One more reorder position changes only the image it names. */
  lemma ReorderedStep(m: Images, ids: seq<string>, n: nat, k: string)
    requires 0 < n <= |ids| && k in m && k != ids[n - 1]
    ensures Reordered(m, ids, n)[k] == Reordered(m, ids, n - 1)[k]
  {
  }

  /**
   * A reorder through distinct ids puts the image at position `i` at `order_index` `i`, and
   * makes it main exactly at position 0.
   */
  lemma {:induction false} ReorderedPositions(m: Images, ids: seq<string>, n: nat)
    requires n <= |ids|
    requires forall i, j :: 0 <= i < j < |ids| ==> ids[i] != ids[j]
    requires forall i :: 0 <= i < n ==> ids[i] in m
    ensures forall i :: 0 <= i < n ==>
      Reordered(m, ids, n)[ids[i]].order_index == i && (Reordered(m, ids, n)[ids[i]].is_main <==> i == 0)
  {
    if n > 0 {
      ReorderedPositions(m, ids, n - 1);
      forall i | 0 <= i < n - 1
        ensures Reordered(m, ids, n)[ids[i]] == Reordered(m, ids, n - 1)[ids[i]]
      {
        ReorderedStep(m, ids, n, ids[i]);
      }
    }
  }

  /** A reorder leaves every image it does not list as it was. */
  lemma {:induction false} ReorderedUnlisted(m: Images, ids: seq<string>, n: nat, k: string)
    requires n <= |ids| && k in m && k !in ids[..n]
    ensures Reordered(m, ids, n)[k] == m[k]
  {
    if n > 0 {
      assert ids[..n] == ids[..n - 1] + [ids[n - 1]];
      ReorderedUnlisted(m, ids, n - 1, k);
      ReorderedStep(m, ids, n, k);
    }
  }

  /** Reordering all of a product's images leaves exactly the first listed one main. */
  lemma ReorderAllLeavesOneMain(m: Images, productId: string, ids: seq<string>)
    requires |ids| > 0
    requires forall i, j :: 0 <= i < j < |ids| ==> ids[i] != ids[j]
    requires forall k :: IsImageOf(m, k, productId) <==> k in ids
    ensures MainImagesOf(Reordered(m, ids, |ids|), productId) == {ids[0]}
  {
    var r := Reordered(m, ids, |ids|);
    assert ids[..|ids|] == ids;
    assert forall i :: 0 <= i < |ids| ==> ids[i] in m by {
      forall i | 0 <= i < |ids| ensures ids[i] in m {
        assert ids[i] in ids;
      }
    }
    ReorderedPositions(m, ids, |ids|);
    forall k | k in MainImagesOf(r, productId) ensures k == ids[0] {
      ReorderedKeeps(m, ids, |ids|, k);
      assert IsImageOf(m, k, productId);
      var i :| 0 <= i < |ids| && ids[i] == k;
    }
    assert ids[0] in ids;
    ReorderedKeeps(m, ids, |ids|, ids[0]);
    assert ids[0] in MainImagesOf(r, productId);
  }
}
