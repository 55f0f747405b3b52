/**
 * `POST /api/products`: an admin creates a product row, with the form's
 * falsy fields replaced by their defaults and the first media url as the
 * thumbnail, followed by one `product_media` row per media entry that has a
 * url.
 */
module ProductsApi {
  import opened Wrappers
  import opened Domain
  import Tables

  /** The request's `media` field: anything but an array is `NotAList`. */
  datatype MediaField = NotAList | MediaList(items: seq<MediaItem>)

  /**
   * The request body.  `None` is a field that is absent or null; an empty
   * `auction_end_time` string is also `None`.  A media entry without a url
   * carries the empty url.
   */
  datatype ProductRequest = ProductRequest(
    title: string,
    description: string,
    price: int,
    shippingCost: Option<int>,
    category: string,
    isAuction: int,
    auctionEnd: Option<int>,
    media: MediaField,
    stock: Option<int>,
    maxPerUser: Option<int>)

  datatype CreateError = Unauthorized

  /** `x || fallback` for a numeric field: absent, null and 0 are falsy. */
  function NumberOr(v: Option<int>, fallback: int): (r: int)
    ensures v.Some? && v.value != 0 ==> r == v.value
    ensures v.None? || v.value == 0 ==> r == fallback
  {
    match v
    case Some(n) => if n == 0 then fallback else n
    case None => fallback
  }

  /** `x || null` for a numeric field. */
  function NumberOrNull(v: Option<int>): (r: Option<int>)
    ensures r != Some(0)
    ensures v != Some(0) ==> r == v
  {
    if v == Some(0) then None else v
  }

  /** The thumbnail: the first media url when `media` is a non-empty array, else the empty string. */
  function MainImage(media: MediaField): (r: string)
    ensures media.MediaList? && media.items != [] ==> r == media.items[0].url
    ensures media.NotAList? || media.items == [] ==> r == ""
  {
    match media
    case MediaList(items) => if |items| > 0 then items[0].url else ""
    case NotAList => ""
  }

  /** The row the INSERT writes, under the id SQLite hands out; `status` takes its column default. */
  function NewRow(id: ProductId, req: ProductRequest): (p: Product)
    ensures p.id == id && p.status == Available
    ensures p.stock != 0 && p.maxPerUser != Some(0)
    ensures req.shippingCost.None? ==> p.shippingCost == 0
    ensures req.stock.None? ==> p.stock == 1
    ensures req.maxPerUser.None? ==> p.maxPerUser.None?
    ensures p.imageUrl == MainImage(req.media)
    ensures p.title == req.title && p.price == req.price && p.isAuction == req.isAuction
  {
    Product(id, req.title, req.price, NumberOr(req.shippingCost, 0), NumberOr(req.stock, 1),
            NumberOrNull(req.maxPerUser), req.isAuction, req.auctionEnd, Available,
            req.description, req.category, MainImage(req.media))
  }

  /** The `product_media` rows written for these entries: one per entry with a url, in order. */
  function MediaRowsFor(id: ProductId, items: seq<MediaItem>): (rows: seq<MediaRow>)
    ensures |rows| <= |items|
  {
    if items == [] then []
    else
      var last := items[|items| - 1];
      MediaRowsFor(id, items[..|items| - 1]) + (if last.url != "" then [MediaRow(id, last.url, last.kind)] else [])
  }

  /**
   * Every row belongs to the new product and copies an entry that has a
   * url, and every entry with a url gets its row.
   */
  lemma {:induction false} MediaRowsCopyEntries(id: ProductId, items: seq<MediaItem>)
    ensures forall r :: r in MediaRowsFor(id, items) ==> r.productId == id && r.url != "" && MediaItem(r.url, r.kind) in items
    ensures forall m :: m in items && m.url != "" ==> MediaRow(id, m.url, m.kind) in MediaRowsFor(id, items)
  {
    if items != [] {
      var init := items[..|items| - 1];
      var last := items[|items| - 1];
      MediaRowsCopyEntries(id, init);
      assert forall m :: m in items ==> m in init || m == last;
      assert forall m :: m in init ==> m in items;
    }
  }

  /** The rows written for a whole request: none unless `media` is an array. */
  function MediaRows(id: ProductId, media: MediaField): seq<MediaRow> {
    match media
    case MediaList(items) => MediaRowsFor(id, items)
    case NotAList => []
  }

  /** A non-empty thumbnail is the url of the first media row written. */
  lemma {:induction false} MainImageIsFirstRow(id: ProductId, media: MediaField)
    requires MainImage(media) != ""
    ensures MediaRows(id, media) != [] && MediaRows(id, media)[0].url == MainImage(media)
  {
    var items := media.items;
    FirstRowComesFirst(id, items);
  }

  lemma {:induction false} FirstRowComesFirst(id: ProductId, items: seq<MediaItem>)
    requires items != [] && items[0].url != ""
    ensures MediaRowsFor(id, items) != [] && MediaRowsFor(id, items)[0] == MediaRow(id, items[0].url, items[0].kind)
    decreases |items|
  {
    if |items| > 1 {
      var init := items[..|items| - 1];
      assert init[0] == items[0];
      FirstRowComesFirst(id, init);
    }
  }

  /** The rows for two runs of entries are the rows for each, in order. */
  lemma {:induction false} MediaRowsOfConcat(id: ProductId, a: seq<MediaItem>, b: seq<MediaItem>)
    ensures MediaRowsFor(id, a + b) == MediaRowsFor(id, a) + MediaRowsFor(id, b)
    decreases |b|
  {
    if b == [] {
      assert a + b == a;
    } else {
      var b0 := b[..|b| - 1];
      assert (a + b)[..|a + b| - 1] == a + b0;
      MediaRowsOfConcat(id, a, b0);
    }
  }

  /** The media loop: `INSERT INTO product_media` for each entry that has a url. */
  method InsertMedia(db: Tables.Database, id: ProductId, items: seq<MediaItem>)
    modifies db`media
    ensures db.media == old(db.media) + MediaRowsFor(id, items)
  {
    var i := 0;
    while i < |items|
      invariant 0 <= i <= |items|
      invariant db.media == old(db.media) + MediaRowsFor(id, items[..i])
    {
      assert items[..i + 1][..i] == items[..i];
      var item := items[i];
      if item.url != "" {
        db.media := db.media + [MediaRow(id, item.url, item.kind)];
      }
      i := i + 1;
    }
    assert items[..i] == items;
  }

  /**
   * `POST /api/products`.  A caller who is not an admin gets `Unauthorized`
   * and nothing is written; otherwise the product row goes in under a fresh
   * id, then its media rows, and the id is returned.
   */
  method CreateProduct(db: Tables.Database, session: Option<Principal>, req: ProductRequest)
    returns (r: Result<ProductId, CreateError>)
    requires db.Valid()
    modifies db`products, db`nextProductId, db`media
    ensures db.Valid()
    ensures !IsAdmin(session) ==>
      && r == Failure(Unauthorized) && db.products == old(db.products) && db.media == old(db.media)
      && db.nextProductId == old(db.nextProductId)
    ensures IsAdmin(session) ==>
      var id := old(db.nextProductId);
      && r == Success(id)
      && db.nextProductId == id + 1
      && id !in old(db.products)
      && db.products == old(db.products)[id := NewRow(id, req)]
      && db.media == old(db.media) + MediaRows(id, req.media)
  {
    if !IsAdmin(session) {
      return Failure(Unauthorized);
    }
    var id := db.nextProductId;
    db.products := db.products[id := NewRow(id, req)];
    db.nextProductId := db.nextProductId + 1;
    if req.media.MediaList? {
      InsertMedia(db, id, req.media.items);
    }
    r := Success(id);
  }
}
