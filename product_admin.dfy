/** The vendor's product pages (useradmin/views.py): `add_product` and
    `edit_product` with their publish rule and tag list, the soft
    `delete_product`, and `restore_product`. */
module ProductAdmin {
  import opened Common
  import opened Text
  import opened Models
  import opened Forms

  // ------------------------------------------------------------ publish rule

  /** The listing flags a save leaves: `status`, `in_stock` and
      `product_status`. `publish` is whether the Publish button was
      pressed; `wasPublished` whether the product was published before
      this save (never, for a new product). */
  function Listing(p: Product, publish: bool, wasPublished: bool): (q: Product)
    ensures q == p.(status := q.status, inStock := q.inStock, productStatus := q.productStatus)
    ensures q.productStatus == Published || q.productStatus == Draft
  {
    if publish && p.amount > 0.0 && p.stockCount > 0 then p.(status := true, inStock := true, productStatus := Published)
    else if publish then p.(status := false, inStock := false, productStatus := Draft)
    else if wasPublished then p.(status := true, inStock := true, productStatus := Published)
    else p.(status := false, inStock := false, productStatus := Draft)
  }

  /** A save either publishes (listed, in stock, published) or drafts
      (unlisted, out of stock, draft), and nothing else changes. It
      publishes exactly when Publish is pressed with a positive price and
      stock, or when Publish is not pressed on a product that was already
      published, whatever its stock. */
  lemma ListingRule(p: Product, publish: bool, wasPublished: bool)
    ensures var q := Listing(p, publish, wasPublished);
      (q == p.(status := true, inStock := true, productStatus := Published)
       || q == p.(status := false, inStock := false, productStatus := Draft))
      && (q.productStatus == Published <==>
            (publish && p.amount > 0.0 && p.stockCount > 0) || (!publish && wasPublished))
      && (q.status <==> q.productStatus == Published) && (q.inStock <==> q.productStatus == Published)
  {
  }

  // ------------------------------------------------------------ tags

  /** The tag list of `add_product`: the comma-separated pieces, stripped,
      the empty ones dropped. */
  function SplitTags(text: string): (tags: seq<string>)
    ensures |tags| <= |Split(text, ',')|
    ensures forall j | 0 <= j < |tags| :: tags[j] != []
  {
    TagsOf(Split(text, ','))
  }

  /** The stripped non-empty pieces, in order. */
  function TagsOf(pieces: seq<string>): (r: seq<string>)
    ensures |r| <= |pieces|
    ensures forall j | 0 <= j < |r| :: r[j] != []
  {
    if pieces == [] then []
    else
      var last := Strip(pieces[|pieces| - 1]);
      TagsOf(pieces[..|pieces| - 1]) + (if last != [] then [last] else [])
  }

  /** A piece free of a character stays free of it once stripped. */
  lemma StripKeepsOut(s: string, c: char)
    requires c !in s
    ensures c !in Strip(s)
  {
    StripIsSlice(s);
    var k := |s| - |TrimLeft(s)|;
    assert Strip(s) == s[k..k + |Strip(s)|];
  }

  /** Every tag is non-empty, stripped and free of commas, and there are no
      more tags than comma-separated pieces. */
  lemma {:induction false} TagsOfWellFormed(pieces: seq<string>)
    requires forall i | 0 <= i < |pieces| :: ',' !in pieces[i]
    ensures |TagsOf(pieces)| <= |pieces|
    ensures forall j | 0 <= j < |TagsOf(pieces)| ::
      TagsOf(pieces)[j] != [] && IsStripped(TagsOf(pieces)[j]) && ',' !in TagsOf(pieces)[j]
  {
    if pieces != [] {
      var init := pieces[..|pieces| - 1];
      var piece := pieces[|pieces| - 1];
      TagsOfWellFormed(init);
      StripIsSlice(piece);
      StripKeepsOut(piece, ',');
    }
  }

  /** The tags of a text: each non-empty, stripped and comma-free, at most
      one more than the number of commas; text without a comma gives its
      stripped self (or nothing when that is empty). */
  lemma SplitTagsSpec(text: string)
    ensures var tags := SplitTags(text);
      |tags| <= Count(text, ',') + 1
      && (forall j | 0 <= j < |tags| :: tags[j] != [] && IsStripped(tags[j]) && ',' !in tags[j])
    ensures ',' !in text ==> SplitTags(text) == if Strip(text) == [] then [] else [Strip(text)]
  {
    SplitCount(text, ',');
    TagsOfWellFormed(Split(text, ','));
    if ',' !in text {
      SplitWithout(text, ',');
      assert Split(text, ',')[..0] == [];
    }
  }

  /** Text without the separator splits into itself. */
  lemma {:induction false} SplitWithout(s: string, sep: char)
    requires sep !in s
    ensures Split(s, sep) == [s]
  {
    if s != [] {
      assert sep !in s[1..];
      SplitWithout(s[1..], sep);
      assert [s[0]] + s[1..] == s;
    }
  }

  // ------------------------------------------------------------ the views

  /** What a product page did. */
  datatype AdminOutcome =
    | Done                      // saved
    | Missing                   // "Product not found"
    | Forbidden                 // another vendor's product
    | Invalid(error: FormError) // the form was refused
    | Unchanged                 // `restore_product` on a product that is not deleted

  /** The product `add_product` creates from a cleaned form. */
  function NewFromForm(f: ProductForm, vendor: VendorId, publish: bool): (p: Product)
    ensures p.vendor == Some(vendor) && p.title == f.title && p.amount == f.amount && p.stockCount == f.stock
    ensures p.tags == SplitTags(f.tags)
  {
    var base := NewProduct(f.title, Some(vendor));
    var filled := base.(category := Some(f.category), amount := f.amount, oldPrice := f.oldPrice, stockCount := f.stock,
                        life := f.life, mfd := f.mfd, tags := SplitTags(f.tags));
    Listing(filled, publish, false)
  }

  /** `add_product`; `pid` is the new product's generated key. */
  method AddProduct(db: Store, limits: FieldLimits, vendor: VendorId, pid: ProductId, input: ProductInput,
                    publish: bool, now: int)
    returns (r: AdminOutcome)
    requires pid !in db.products
    modifies db`products
    ensures var f := CleanProductForm(input, limits, db.categories, now);
      if f.Fail? then r == Invalid(f.error) && db.products == old(db.products)
      else r == Done && db.products == old(db.products)[pid := NewFromForm(f.value, vendor, publish)]
  {
    var f := CleanProductForm(input, limits, db.categories, now);
    if f.Fail? {
      return Invalid(f.error);
    }
    var product := NewFromForm(f.value, vendor, publish);
    db.products := db.products[pid := product];
    r := Done;
  }

  /** A product added with Publish is published exactly when its stock is
      positive (the form already demands a positive price); one added
      without Publish is a draft. */
  lemma AddPublishesWithStock(input: ProductInput, limits: FieldLimits, categories: set<CategoryId>, vendor: VendorId,
                               publish: bool, now: int)
    requires CleanProductForm(input, limits, categories, now).Pass?
    ensures var p := NewFromForm(CleanProductForm(input, limits, categories, now).value, vendor, publish);
      (p.productStatus == Published <==> publish && p.stockCount > 0)
      && (p.productStatus == Published ==> p.status && p.inStock)
      && (p.productStatus != Published ==> p.productStatus == Draft && !p.status && !p.inStock)
  {
    ProductFormAccepts(input, limits, categories, now);
  }

  /** The product `edit_product` saves: the form's fields over the stored
      ones (the tags are not saved), then the publish rule. */
  function Edited(p: Product, f: ProductForm, vendor: VendorId, publish: bool): (q: Product)
    ensures q.title == f.title && q.amount == f.amount && q.oldPrice == f.oldPrice && q.stockCount == f.stock
      && q.life == f.life && q.mfd == f.mfd && q.category == Some(f.category) && q.vendor == Some(vendor)
    ensures q.tags == p.tags && q.imageUrl == p.imageUrl
    ensures q.productStatus == Published <==>
      (publish && f.amount > 0.0 && f.stock > 0) || (!publish && p.productStatus == Published)
  {
    var filled := p.(title := f.title, vendor := Some(vendor), category := Some(f.category), amount := f.amount,
                     oldPrice := f.oldPrice, stockCount := f.stock, life := f.life, mfd := f.mfd);
    Listing(filled, publish, p.productStatus == Published)
  }

  /** `edit_product`. */
  method EditProduct(db: Store, limits: FieldLimits, vendor: VendorId, pid: ProductId, input: ProductInput,
                     publish: bool, now: int)
    returns (r: AdminOutcome)
    modifies db`products
    ensures r == (if pid !in old(db.products) then Missing
                  else if old(db.products)[pid].vendor != Some(vendor) then Forbidden
                  else if CleanProductForm(input, limits, db.categories, now).Fail? then
                    Invalid(CleanProductForm(input, limits, db.categories, now).error)
                  else Done)
    ensures db.products ==
      if r == Done then
        old(db.products)[pid := Edited(old(db.products)[pid], CleanProductForm(input, limits, db.categories, now).value,
                                       vendor, publish)]
      else old(db.products)
  {
    if pid !in db.products {
      return Missing;
    }
    var product := db.products[pid];
    if product.vendor != Some(vendor) {
      return Forbidden;
    }
    var f := CleanProductForm(input, limits, db.categories, now);
    if f.Fail? {
      return Invalid(f.error);
    }
    db.products := db.products[pid := Edited(product, f.value, vendor, publish)];
    r := Done;
  }

  /** Saving a published product without Publish keeps it published,
      listed and in stock even with no stock left; its tags are kept. */
  lemma EditKeepsPublished(p: Product, f: ProductForm, vendor: VendorId)
    requires p.productStatus == Published
    ensures var q := Edited(p, f, vendor, false);
      q.productStatus == Published && q.status && q.inStock && q.stockCount == f.stock && q.tags == p.tags
  {
  }

  /** The soft delete: unlisted, out of stock, deleted. */
  function SoftDeleted(p: Product): (q: Product)
    ensures q.productStatus == Deleted && !q.status && !q.inStock
    ensures q.(status := p.status, inStock := p.inStock, productStatus := p.productStatus) == p
  {
    p.(status := false, inStock := false, productStatus := Deleted)
  }

  /** `delete_product`. */
  method DeleteProduct(db: Store, vendor: VendorId, pid: ProductId) returns (r: AdminOutcome)
    modifies db`products
    ensures r == (if pid !in old(db.products) then Missing
                  else if old(db.products)[pid].vendor != Some(vendor) then Forbidden
                  else Done)
    ensures db.products == if r == Done then old(db.products)[pid := SoftDeleted(old(db.products)[pid])] else old(db.products)
  {
    if pid !in db.products {
      return Missing;
    }
    var product := db.products[pid];
    if product.vendor != Some(vendor) {
      return Forbidden;
    }
    db.products := db.products[pid := SoftDeleted(product)];
    r := Done;
  }

  /** `restore_product`'s change: a deleted product becomes an unlisted,
      out-of-stock draft; any other product is left as it is. */
  function Restored(p: Product): (q: Product)
    ensures q.productStatus != Deleted
    ensures p.productStatus != Deleted ==> q == p
    ensures q.(status := p.status, inStock := p.inStock, productStatus := p.productStatus) == p
  {
    if p.productStatus == Deleted then p.(status := false, inStock := false, productStatus := Draft) else p
  }

  /** `restore_product`; a product of another vendor is not found. */
  method RestoreProduct(db: Store, vendor: VendorId, pid: ProductId) returns (r: AdminOutcome)
    modifies db`products
    ensures r == (if pid !in old(db.products) || old(db.products)[pid].vendor != Some(vendor) then Missing
                  else if old(db.products)[pid].productStatus != Deleted then Unchanged
                  else Done)
    ensures db.products == if r == Done then old(db.products)[pid := Restored(old(db.products)[pid])] else old(db.products)
  {
    if pid !in db.products || db.products[pid].vendor != Some(vendor) {
      return Missing;
    }
    var product := db.products[pid];
    if product.productStatus != Deleted {
      return Unchanged;
    }
    db.products := db.products[pid := Restored(product)];
    r := Done;
  }

  /** Deleting keeps the product's record (only its three flags change);
      restoring a deleted product gives a draft with every other field as
      before the delete; restoring twice is restoring once; and a draft is
      never listed or in stock after a restore. */
  lemma DeleteRestoreRoundTrip(p: Product)
    ensures var d := SoftDeleted(p);
      d.title == p.title && d.amount == p.amount && d.stockCount == p.stockCount && d.vendor == p.vendor
      && Restored(d) == p.(status := false, inStock := false, productStatus := Draft)
      && Restored(Restored(p)) == Restored(p)
      && (p.productStatus != Deleted ==> Restored(p) == p)
      && SoftDeleted(SoftDeleted(p)) == SoftDeleted(p)
  {
  }
}
