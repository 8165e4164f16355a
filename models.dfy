/** The storefront's records and the database tables that hold them
    (core/models.py), with the model-level helpers the core uses:
    the discount percentage of a product, the image path of an order
    line, and the vendor's primary image and banner switch. */
module Models {
  import opened Common
  import opened Text

  type ProductId = string
  type VendorId = string
  type CategoryId = string
  type UserId = int
  type OrderId = int
  type CouponId = int
  type AddressId = int
  type ImageId = int

  /** `Product.product_status`. */
  datatype ProductStatus = InReview | Draft | Published | Disabled | Rejected | Deleted

  /** The fields of a product the core reads or writes. `imageUrl` is the
      product's `primary_image_url` as the image table resolves it. */
  datatype Product = Product(
    title: string,
    vendor: Option<VendorId>,
    category: Option<CategoryId>,
    amount: real,
    oldPrice: real,
    stockCount: nat,
    life: nat,
    mfd: Option<int>,
    status: bool,
    inStock: bool,
    productStatus: ProductStatus,
    tags: seq<string>,
    imageUrl: string)

  /** `CartOrder`. The status is free text: the vendor's status change
      stores whatever the form posts. */
  datatype Order = Order(
    user: UserId,
    vendor: VendorId,
    amount: real,
    coupon: Option<CouponId>,
    paid: bool,
    status: string)

  /** `CartOrderProducts`: a snapshot of one product in an order. */
  datatype LineItem = LineItem(item: string, image: string, qty: nat, price: real, total: real)

  /** `Coupon`; `expiry` is an instant on the model's clock. */
  datatype Coupon = Coupon(
    vendor: VendorId,
    code: string,
    discount: real,
    active: bool,
    expiry: int,
    minOrder: real,
    maxDiscount: real,
    oncePerUser: bool)

  /** `Address`: only the owner and the default flag matter to the core. */
  datatype Address = Address(user: Option<UserId>, status: bool)

  /** `Image`: a picture attached to a category, product, vendor or banner. */
  datatype Image = Image(objectType: string, objectId: string, isPrimary: bool)

  const PENDING := "pending"
  const PROCESSING := "processing"
  const SHIPPED := "shipped"
  const DELIVERED := "delivered"

  /** `Image.object_type` of a vendor's pictures and of its banners. */
  const VENDOR_IMAGE := "Vendor"
  const VENDOR_BANNER := "vendor_banner"

  /** A product as `Product()` creates it before any field is set:
      no stock, in review, listed and in stock. */
  function NewProduct(title: string, vendor: Option<VendorId>): (p: Product)
    ensures p.stockCount == 0 && p.productStatus == InReview && p.status && p.inStock
    ensures p.amount == 0.0 && p.oldPrice == 0.0 && p.title == title && p.vendor == vendor
  {
    Product(title, vendor, None, 0.0, 0.0, 0, 0, None, true, true, InReview, [], "")
  }

  /** An order as `CartOrder()` creates it: processing, unpaid, no coupon. */
  function NewOrder(user: UserId, vendor: VendorId, amount: real): (o: Order)
    ensures o.status == PROCESSING && !o.paid && o.coupon == None
    ensures o.user == user && o.vendor == vendor && o.amount == amount
  {
    Order(user, vendor, amount, None, false, PROCESSING)
  }

  /** Python's `round(x, 0)` on a `Decimal`: the nearest integer, ties to the even one. */
  function RoundHalfEven(x: real): (r: int)
    ensures x - 0.5 <= r as real <= x + 0.5
    ensures (r as real == x - 0.5 || r as real == x + 0.5) ==> r % 2 == 0
  {
    var f := x.Floor;
    var d := x - f as real;
    if d < 0.5 then f
    else if d > 0.5 then f + 1
    else if f % 2 == 0 then f
    else f + 1
  }

  /** A whole number is its own rounding. */
  lemma RoundWhole(n: int)
    ensures RoundHalfEven(n as real) == n
  {
    var r := RoundHalfEven(n as real);
    assert n as real - 0.5 <= r as real <= n as real + 0.5;
  }

  /** `ROUND_HALF_UP` to a whole number: the nearest integer, ties away
      from zero. */
  function RoundHalfUp(y: real): (n: int)
    ensures y - 0.5 <= n as real <= y + 0.5
    ensures n as real == y + 0.5 ==> y > 0.0
    ensures n as real == y - 0.5 ==> y < 0.0
  {
    if y >= 0.0 then (y + 0.5).Floor else -((-y + 0.5).Floor)
  }

  /** How a value written to a money column (`DecimalField` with two
      decimal places) is rounded. This depends on the database: PostgreSQL
      and MySQL round ties away from zero, while Django's SQLite backend
      quantizes with the decimal module's default of ties to even. */
  datatype Rounding = HalfEven | HalfUp

  /** A whole number of cents. */
  predicate IsCents(x: real)
  {
    (x * 100.0).Floor as real == x * 100.0
  }

  /** The value a money column holds after `x` is saved and read back. */
  function ToCents(mode: Rounding, x: real): real
  {
    (if mode == HalfEven then RoundHalfEven(x * 100.0) else RoundHalfUp(x * 100.0)) as real / 100.0
  }

  /** The stored value is a whole number of cents within half a cent of
      the value; a value half way between two whole cents goes away from
      zero under `HalfUp` and to the even number of cents under
      `HalfEven`. */
  lemma CentsSpec(mode: Rounding, x: real)
    ensures var r := ToCents(mode, x);
      IsCents(r) && x - 0.005 <= r <= x + 0.005
      && (mode == HalfUp && r == x + 0.005 ==> x > 0.0)
      && (mode == HalfUp && r == x - 0.005 ==> x < 0.0)
      && (mode == HalfEven && (r == x + 0.005 || r == x - 0.005) ==> (r * 100.0).Floor % 2 == 0)
  {
    var n := if mode == HalfEven then RoundHalfEven(x * 100.0) else RoundHalfUp(x * 100.0);
    assert ToCents(mode, x) * 100.0 == n as real && (n as real).Floor == n;
  }

  /** A whole number of cents is stored unchanged, so storing a stored
      value again changes nothing. */
  lemma CentsKept(mode: Rounding, x: real)
    requires IsCents(x)
    ensures ToCents(mode, x) == x
  {
    var n := (x * 100.0).Floor;
    assert x * 100.0 == n as real;
    assert (n as real).Floor == n;
    var m := if mode == HalfEven then RoundHalfEven(n as real) else RoundHalfUp(n as real);
    assert n as real - 0.5 <= m as real <= n as real + 0.5;
    assert m == n;
  }

  /** Whole cents add up to whole cents. */
  lemma CentsSum(a: real, b: real)
    requires IsCents(a) && IsCents(b)
    ensures IsCents(a + b) && IsCents(a - b)
  {
    var na, nb := (a * 100.0).Floor, (b * 100.0).Floor;
    assert a * 100.0 == na as real && b * 100.0 == nb as real;
    var sum, diff := na + nb, na - nb;
    assert (a + b) * 100.0 == sum as real && (sum as real).Floor == sum;
    assert (a - b) * 100.0 == diff as real && (diff as real).Floor == diff;
  }

  /** `Product.get_precentage` (the second definition, which replaces the
      first): the price drop relative to the old price, in whole percent. */
  function GetPercentage(p: Product): (r: int)
    ensures p.oldPrice <= 0.0 ==> r == 0
    ensures p.oldPrice > 0.0 ==>
      var drop := (p.oldPrice - p.amount) / p.oldPrice * 100.0;
      drop - 0.5 <= r as real <= drop + 0.5
  {
    if p.oldPrice > 0.0 then RoundHalfEven((p.oldPrice - p.amount) / p.oldPrice * 100.0) else 0
  }

  /** No old price, or a price that did not move, gives 0 percent. */
  lemma PercentageWithoutDrop(p: Product)
    requires p.oldPrice <= 0.0 || p.amount == p.oldPrice
    ensures GetPercentage(p) == 0
  {
    if p.oldPrice > 0.0 {
      assert (p.oldPrice - p.amount) / p.oldPrice * 100.0 == 0.0;
      RoundWhole(0);
    }
  }

  /** A sale price between 0 and the old price gives a percentage in [0, 100]. */
  lemma PercentageBounds(p: Product)
    requires 0.0 <= p.amount <= p.oldPrice && p.oldPrice > 0.0
    ensures 0 <= GetPercentage(p) <= 100
  {
    var q := (p.oldPrice - p.amount) / p.oldPrice;
    assert 0.0 <= q <= 1.0 by {
      assert p.oldPrice - p.amount <= p.oldPrice;
    }
    var x := q * 100.0;
    assert 0.0 <= x <= 100.0;
    var r := RoundHalfEven(x);
    assert r as real <= 100.5 && r as real >= -0.5;
  }

  /** A positive percentage means the sale price is below the old price. */
  lemma PositivePercentageMeansDrop(p: Product)
    requires GetPercentage(p) > 0
    ensures p.oldPrice > 0.0 && p.amount < p.oldPrice
  {
    var q := (p.oldPrice - p.amount) / p.oldPrice;
    var r := RoundHalfEven(q * 100.0);
    assert q * 100.0 >= 0.5;
    assert q > 0.0;
    assert p.oldPrice - p.amount == q * p.oldPrice;
  }

  /** `CartOrderProducts.image_src`: absolute URLs and data URIs are kept
      (stripped); anything else is a path under `MEDIA_URL`. */
  function ImageSrc(image: Option<string>, mediaUrl: string): (r: string)
    ensures image.None? || image.value == [] ==> r == []
    ensures image.Some? && image.value != [] ==> IsAbsolute(r) || StartsWith(r, mediaUrl)
  {
    if image.None? || image.value == [] then ""
    else
      var img := Strip(image.value);
      if IsAbsolute(img) then img else mediaUrl + LStripChar(img, '/')
  }

  predicate IsAbsolute(img: string)
  {
    StartsWith(img, "http://") || StartsWith(img, "https://") || StartsWith(img, "data:")
  }

  /** An absolute image is returned stripped, and `image_src` of that result is itself. */
  lemma ImageSrcAbsolute(image: string, mediaUrl: string)
    requires image != [] && IsAbsolute(Strip(image))
    ensures ImageSrc(Some(image), mediaUrl) == Strip(image)
    ensures ImageSrc(Some(ImageSrc(Some(image), mediaUrl)), mediaUrl) == ImageSrc(Some(image), mediaUrl)
  {
    StripIdempotent(image);
  }

  /** Any other non-empty image becomes `MEDIA_URL` followed by a tail of
      the stripped path that does not start with `/`; whitespace alone
      gives `MEDIA_URL` itself. */
  lemma ImageSrcRelative(image: string, mediaUrl: string)
    requires image != [] && !IsAbsolute(Strip(image))
    ensures var r := ImageSrc(Some(image), mediaUrl);
      var t := r[|mediaUrl|..];
      StartsWith(r, mediaUrl) && |t| <= |Strip(image)|
      && t == Strip(image)[|Strip(image)| - |t|..]
      && (t != [] ==> t[0] != '/')
      && (forall i | 0 <= i < |Strip(image)| - |t| :: Strip(image)[i] == '/')
    ensures (forall i | 0 <= i < |image| :: IsSpace(image[i])) ==> ImageSrc(Some(image), mediaUrl) == mediaUrl
  {
    StripIsSlice(image);
    var r := ImageSrc(Some(image), mediaUrl);
    assert r == mediaUrl + LStripChar(Strip(image), '/');
    assert r[..|mediaUrl|] == mediaUrl;
    assert r[|mediaUrl|..] == LStripChar(Strip(image), '/');
  }

  /** Does the image belong to vendor `vid` with this object type? */
  predicate BelongsTo(img: Image, objectType: string, vid: VendorId)
  {
    img.objectType == objectType && img.objectId == vid
  }

  /** The image table after `set_primary_image`/`set_primary_banner`. */
  function WithPrimary(images: map<ImageId, Image>, objectType: string, vid: VendorId, chosen: ImageId): (r: map<ImageId, Image>)
    ensures r.Keys == images.Keys
    ensures forall id | id in r :: r[id] == images[id].(isPrimary := r[id].isPrimary)
  {
    map id | id in images ::
      if BelongsTo(images[id], objectType, vid) then images[id].(isPrimary := id == chosen) else images[id]
  }

  /** After the switch exactly the chosen image of that vendor and type is
      primary, if it belongs to them, and none is if it does not; images of
      other vendors and types are untouched. */
  lemma WithPrimaryOnlyChosen(images: map<ImageId, Image>, objectType: string, vid: VendorId, chosen: ImageId)
    ensures var after := WithPrimary(images, objectType, vid, chosen);
      after.Keys == images.Keys
      && (forall id | id in after && BelongsTo(after[id], objectType, vid) ::
            after[id].isPrimary <==> id == chosen)
      && (forall id | id in after && !BelongsTo(images[id], objectType, vid) :: after[id] == images[id])
      && ((chosen !in images || !BelongsTo(images[chosen], objectType, vid)) ==>
            forall id | id in after && BelongsTo(after[id], objectType, vid) :: !after[id].isPrimary)
  {
  }

  /** The database tables the core reads and writes. Line items are
      grouped by the order they belong to. */
  class Store {
    var products: map<ProductId, Product>
    var orders: map<OrderId, Order>
    var lineItems: map<OrderId, seq<LineItem>>
    var coupons: map<CouponId, Coupon>
    var addresses: map<AddressId, Address>
    var images: map<ImageId, Image>
    var categories: set<CategoryId>
    /** How the database rounds the money columns it stores. */
    const rounding: Rounding

    /** The coupon foreign key of every order resolves. */
    ghost predicate Valid()
      reads this
    {
      forall o | o in orders && orders[o].coupon.Some? :: orders[o].coupon.value in coupons
    }

    constructor (rounding: Rounding)
      ensures Valid() && this.rounding == rounding
      ensures products == map[] && orders == map[] && lineItems == map[]
      ensures coupons == map[] && addresses == map[] && images == map[] && categories == {}
    {
      products, orders, lineItems := map[], map[], map[];
      coupons, addresses, images := map[], map[], map[];
      categories := {};
      this.rounding := rounding;
    }

    /** The line items of order `oid`. */
    function ItemsOf(oid: OrderId): seq<LineItem>
      reads this
    {
      if oid in lineItems then lineItems[oid] else []
    }
  }

  /** `Vendor.set_primary_image` / `Vendor.set_primary_banner`: clear every
      primary flag of the vendor's images of that type, then set the chosen
      one's. Returns the number of rows the second update touched. */
  method SetPrimary(db: Store, objectType: string, vid: VendorId, chosen: ImageId) returns (updated: nat)
    modifies db`images
    ensures db.images == WithPrimary(old(db.images), objectType, vid, chosen)
    ensures updated == if chosen in old(db.images) && BelongsTo(old(db.images)[chosen], objectType, vid) then 1 else 0
  {
    ghost var before := db.images;
    db.images := map id | id in db.images ::
      if BelongsTo(db.images[id], objectType, vid) && db.images[id].isPrimary
      then db.images[id].(isPrimary := false) else db.images[id];
    if chosen in db.images && BelongsTo(db.images[chosen], objectType, vid) {
      db.images := db.images[chosen := db.images[chosen].(isPrimary := true)];
      updated := 1;
    } else {
      updated := 0;
    }
    assert db.images == WithPrimary(before, objectType, vid, chosen);
  }

  /** `Vendor.set_primary_image`. */
  method SetPrimaryImage(db: Store, vid: VendorId, chosen: ImageId) returns (updated: nat)
    modifies db`images
    ensures db.images == WithPrimary(old(db.images), VENDOR_IMAGE, vid, chosen)
    ensures updated == if chosen in old(db.images) && BelongsTo(old(db.images)[chosen], VENDOR_IMAGE, vid) then 1 else 0
  {
    updated := SetPrimary(db, VENDOR_IMAGE, vid, chosen);
  }

  /** `Vendor.set_primary_banner`. */
  method SetPrimaryBanner(db: Store, vid: VendorId, chosen: ImageId) returns (updated: nat)
    modifies db`images
    ensures db.images == WithPrimary(old(db.images), VENDOR_BANNER, vid, chosen)
    ensures updated == if chosen in old(db.images) && BelongsTo(old(db.images)[chosen], VENDOR_BANNER, vid) then 1 else 0
  {
    updated := SetPrimary(db, VENDOR_BANNER, vid, chosen);
  }
}
