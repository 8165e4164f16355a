/** `checkout` (core/views.py): inside one transaction the order loses its
    coupon, its line items are rebuilt from the session cart at the prices
    the cart holds, its amount becomes the subtotal, and a coupon the
    request names may be applied and its capped discount taken off. */
module Checkout {
  import opened Common
  import opened Text
  import opened Models
  import opened Cart
  import opened Pricing

  /** A cart line `checkout` can turn into a line item: `int(qty)` and
      `Decimal(price)` succeed and the quantity fits a positive-integer
      column. Any other line makes the request fail. */
  predicate Usable(line: CartItem)
  {
    line.qty.Parsed? && line.qty.value >= 0 && line.price.Parsed?
  }

  /** The line item created for product `p` and its cart line. */
  function ItemFor(p: Product, line: CartItem): LineItem
    requires Usable(line)
  {
    var q := line.qty.value;
    LineItem(p.title, p.imageUrl, q, line.price.value, Times(q, line.price.value))
  }

  /** The line items the loop of `checkout` creates, in cart order: a line
      whose product is gone is skipped, and `None` when a line raises. */
  function Reconcile(ids: seq<ProductId>, lines: map<ProductId, CartItem>, products: map<ProductId, Product>): (r: Option<seq<LineItem>>)
    requires AllIn(ids, lines)
  {
    if ids == [] then Some([])
    else
      var done := Reconcile(ids[..|ids| - 1], lines, products);
      var id := ids[|ids| - 1];
      if done.None? || id !in products then done
      else if Usable(lines[id]) then Some(done.value + [ItemFor(products[id], lines[id])])
      else None
  }

  /** `sum(i.total for i in order_items)`. */
  function ItemsTotal(items: seq<LineItem>): real
  {
    if items == [] then 0.0 else ItemsTotal(items[..|items| - 1]) + items[|items| - 1].total
  }

  /** A line item as the table stores it: its price and total rounded to
      cents. */
  function Stored(mode: Rounding, item: LineItem): LineItem
  {
    item.(price := ToCents(mode, item.price), total := ToCents(mode, item.total))
  }

  /** The line items as the table stores them, in the same order. */
  function StoredItems(mode: Rounding, items: seq<LineItem>): (r: seq<LineItem>)
    ensures |r| == |items|
  {
    if items == [] then [] else StoredItems(mode, items[..|items| - 1]) + [Stored(mode, items[|items| - 1])]
  }

  /** The `i`-th stored item is the `i`-th item, rounded. */
  lemma {:induction false} StoredItemsAt(mode: Rounding, items: seq<LineItem>, i: nat)
    requires i < |items|
    ensures StoredItems(mode, items)[i] == Stored(mode, items[i])
  {
    if i < |items| - 1 {
      StoredItemsAt(mode, items[..|items| - 1], i);
    }
  }

  /** The stored items add up to a whole number of cents, within half a
      cent per item of what the unrounded items add up to. */
  lemma {:induction false} StoredItemsTotal(mode: Rounding, items: seq<LineItem>)
    ensures var t := ItemsTotal(StoredItems(mode, items));
      IsCents(t)
      && ItemsTotal(items) - 0.005 * |items| as real <= t <= ItemsTotal(items) + 0.005 * |items| as real
  {
    if items != [] {
      var init, last := items[..|items| - 1], items[|items| - 1];
      StoredItemsTotal(mode, init);
      var s := StoredItems(mode, init);
      assert (s + [Stored(mode, last)])[..|s|] == s;
      CentsSpec(mode, last.total);
      CentsSum(ItemsTotal(s), ToCents(mode, last.total));
    }
  }

  /** Items whose prices and totals are whole cents are stored as they
      are. */
  lemma {:induction false} StoredKeepsCents(mode: Rounding, items: seq<LineItem>)
    requires forall i | 0 <= i < |items| :: IsCents(items[i].price) && IsCents(items[i].total)
    ensures StoredItems(mode, items) == items
  {
    if items != [] {
      var init, last := items[..|items| - 1], items[|items| - 1];
      StoredKeepsCents(mode, init);
      CentsKept(mode, last.price);
      CentsKept(mode, last.total);
    }
  }

  /** Every price the cart holds is a whole number of cents, as the prices
      copied from products are. */
  predicate CentPrices(lines: map<ProductId, CartItem>)
  {
    forall id | id in lines && lines[id].price.Parsed? :: IsCents(lines[id].price.value)
  }

  /** A whole number of cents times a quantity is a whole number of cents. */
  lemma {:induction false} TimesCents(q: int, p: real)
    requires IsCents(p)
    ensures IsCents(Times(q, p))
    decreases if q < 0 then -q else q
  {
    if q > 0 {
      TimesCents(q - 1, p);
      CentsSum(Times(q - 1, p), p);
    } else if q < 0 {
      TimesCents(q + 1, p);
      CentsSum(Times(q + 1, p), p);
    }
  }

  /** From a cart whose prices are whole cents, the rebuilt items have
      prices and totals in whole cents. */
  lemma {:induction false} ReconcileCents(ids: seq<ProductId>, lines: map<ProductId, CartItem>, products: map<ProductId, Product>)
    requires AllIn(ids, lines) && CentPrices(lines)
    requires Reconcile(ids, lines, products).Some?
    ensures var r := Reconcile(ids, lines, products).value;
      forall i | 0 <= i < |r| :: IsCents(r[i].price) && IsCents(r[i].total)
  {
    if ids != [] {
      var init, id := ids[..|ids| - 1], ids[|ids| - 1];
      assert AllIn(init, lines);
      ReconcileCents(init, lines, products);
      if id in products {
        var line := lines[id];
        TimesCents(line.qty.value, line.price.value);
      }
    }
  }

  /** The item made for a product and its cart line names the product's
      current title and image and charges `qty × price` at the price
      stored in the cart. */
  predicate ItemMatches(item: LineItem, p: Product, line: CartItem)
  {
    Usable(line)
    && item.item == p.title && item.image == p.imageUrl
    && item.qty == line.qty.value && item.price == line.price.value
    && item.total == line.qty.value as real * line.price.value
  }

  /** The rebuild succeeds exactly when every line whose product exists is
      usable. */
  lemma {:induction false} ReconcileDefined(ids: seq<ProductId>, lines: map<ProductId, CartItem>, products: map<ProductId, Product>)
    requires AllIn(ids, lines)
    ensures Reconcile(ids, lines, products).Some? <==>
      forall i | 0 <= i < |ids| && ids[i] in products :: Usable(lines[ids[i]])
  {
    if ids != [] {
      var init := ids[..|ids| - 1];
      assert forall i | 0 <= i < |init| :: init[i] == ids[i];
      ReconcileDefined(init, lines, products);
    }
  }

  /** A successful rebuild holds one item per cart line whose product
      exists. */
  lemma {:induction false} ReconcileLength(ids: seq<ProductId>, lines: map<ProductId, CartItem>, products: map<ProductId, Product>)
    requires AllIn(ids, lines)
    requires Reconcile(ids, lines, products).Some?
    ensures AllIn(Present(ids, products), lines)
    ensures |Reconcile(ids, lines, products).value| == |Present(ids, products)|
  {
    if ids != [] {
      var init := ids[..|ids| - 1];
      var id := ids[|ids| - 1];
      assert ids == init + [id];
      assert AllIn(init, lines);
      ReconcileLength(init, lines, products);
      PresentSnoc(init, id, products);
    }
  }

  /** A successful rebuild holds the items in cart order, each matching
      its product and line. */
  lemma {:induction false} ReconcileMatchesPresent(ids: seq<ProductId>, lines: map<ProductId, CartItem>, products: map<ProductId, Product>)
    requires AllIn(ids, lines)
    requires Reconcile(ids, lines, products).Some?
    ensures AllIn(Present(ids, products), lines)
    ensures var r := Reconcile(ids, lines, products).value;
      var kept := Present(ids, products);
      |r| == |kept|
      && forall k | 0 <= k < |kept| :: ItemMatches(r[k], products[kept[k]], lines[kept[k]])
  {
    ReconcileLength(ids, lines, products);
    if ids != [] {
      var init := ids[..|ids| - 1];
      var id := ids[|ids| - 1];
      assert ids == init + [id];
      assert AllIn(init, lines);
      ReconcileMatchesPresent(init, lines, products);
      PresentSnoc(init, id, products);
      var done := Reconcile(init, lines, products).value;
      var kept := Present(init, products);
      if id in products {
        var item := ItemFor(products[id], lines[id]);
        TimesIsProduct(lines[id].qty.value, lines[id].price.value);
        assert ItemMatches(item, products[id], lines[id]);
        var r, k2 := done + [item], kept + [id];
        forall k | 0 <= k < |k2|
          ensures ItemMatches(r[k], products[k2[k]], lines[k2[k]])
        {
          if k < |kept| {
            assert r[k] == done[k] && k2[k] == kept[k];
          }
        }
      } else {
        assert Present(ids, products) == kept;
      }
    }
  }

  /** The rebuilt items add up to the total `cart_view` computed for the
      same cart: the amount a pending order got from the cart page is the
      subtotal its checkout charges. */
  lemma {:induction false} ReconcileTotalIsCartTotal(ids: seq<ProductId>, lines: map<ProductId, CartItem>, products: map<ProductId, Product>)
    requires AllIn(ids, lines)
    requires Reconcile(ids, lines, products).Some?
    ensures AllIn(Present(ids, products), lines)
    ensures ItemsTotal(Reconcile(ids, lines, products).value) == LinesTotal(Present(ids, products), lines)
  {
    if ids != [] {
      var init := ids[..|ids| - 1];
      var id := ids[|ids| - 1];
      assert ids == init + [id];
      assert AllIn(init, lines);
      var done := Reconcile(init, lines, products);
      assert done.Some?;
      ReconcileTotalIsCartTotal(init, lines, products);
      PresentSnoc(init, id, products);
      var kept := Present(init, products);
      if id in products {
        ViewedLinesSnoc(kept, id, lines);
        var item := ItemFor(products[id], lines[id]);
        assert (done.value + [item])[..|done.value|] == done.value;
        assert ItemsTotal(done.value + [item]) == ItemsTotal(done.value) + item.total;
        assert item.total == ViewSubtotal(lines[id]);
      } else {
        assert Present(ids, products) == kept;
      }
    }
  }

  /** The loop of `checkout` that creates the line items. */
  method RebuildItems(ids: seq<ProductId>, lines: map<ProductId, CartItem>, products: map<ProductId, Product>)
    returns (items: Option<seq<LineItem>>)
    requires AllIn(ids, lines)
    ensures items == Reconcile(ids, lines, products)
  {
    var made: seq<LineItem> := [];
    var i := 0;
    while i < |ids|
      invariant 0 <= i <= |ids|
      invariant Reconcile(ids[..i], lines, products) == Some(made)
    {
      var id := ids[i];
      assert ids[..i + 1][..i] == ids[..i];
      if id in products {
        var line := lines[id];
        if !Usable(line) {
          ReconcileFailsFrom(ids, i + 1, lines, products);
          return None;
        }
        made := made + [ItemFor(products[id], line)];
      }
      i := i + 1;
    }
    assert ids[..|ids|] == ids;
    items := Some(made);
  }

  /** Once a prefix fails, the whole rebuild fails. */
  lemma {:induction false} ReconcileFailsFrom(ids: seq<ProductId>, n: nat, lines: map<ProductId, CartItem>, products: map<ProductId, Product>)
    requires AllIn(ids, lines) && n <= |ids|
    requires Reconcile(ids[..n], lines, products).None?
    ensures Reconcile(ids, lines, products).None?
    decreases |ids| - n
  {
    if n < |ids| {
      assert ids[..n + 1][..n] == ids[..n];
      ReconcileFailsFrom(ids, n + 1, lines, products);
    } else {
      assert ids[..n] == ids;
    }
  }

  /** The page `checkout` renders, or why it did not. */
  datatype CheckoutResult =
    | Priced(subtotal: real, discount: real, total: real, attempt: Attempt)
    | OrderNotFound
    | CheckoutFailed

  /** The session cart as `checkout` reads it: a missing cart is empty. */
  function CartOf(cart: Option<CartData>): CartData
  {
    if cart.Some? then cart.value else CartData([], map[])
  }

  /** The coupon applied in this request, if any. */
  function AppliedCoupon(attempt: Attempt, coupons: map<CouponId, Coupon>): Option<Coupon>
    requires attempt.Applied? ==> attempt.coupon in coupons
  {
    if attempt.Applied? then Some(coupons[attempt.coupon]) else None
  }

  /** The priced order as stored: the amount is the subtotal, less the
      discount of the coupon applied in this request if there is one,
      rounded to cents. */
  function PricedOrder(mode: Rounding, o: Order, subtotal: real, attempt: Attempt, coupons: map<CouponId, Coupon>): Order
    requires attempt.Applied? ==> attempt.coupon in coupons
  {
    o.(coupon := if attempt.Applied? then Some(attempt.coupon) else None,
       amount := ToCents(mode, Total(subtotal, AppliedCoupon(attempt, coupons))))
  }

  /** The subtotal `checkout` reads back from the stored items is a whole
      number of cents within half a cent per item of the cart page's total,
      and equal to it when the cart's prices are whole cents. */
  lemma StoredSubtotal(mode: Rounding, ids: seq<ProductId>, lines: map<ProductId, CartItem>, products: map<ProductId, Product>)
    requires AllIn(ids, lines)
    requires Reconcile(ids, lines, products).Some?
    ensures AllIn(Present(ids, products), lines)
    ensures var t := ItemsTotal(StoredItems(mode, Reconcile(ids, lines, products).value));
      var cartTotal := LinesTotal(Present(ids, products), lines);
      var n := |Present(ids, products)| as real;
      IsCents(t) && cartTotal - 0.005 * n <= t <= cartTotal + 0.005 * n
      && (CentPrices(lines) ==> t == cartTotal)
  {
    ReconcileTotalIsCartTotal(ids, lines, products);
    ReconcileLength(ids, lines, products);
    var items := Reconcile(ids, lines, products).value;
    StoredItemsTotal(mode, items);
    if CentPrices(lines) {
      ReconcileCents(ids, lines, products);
      StoredKeepsCents(mode, items);
    }
  }

  /** The outcome of the coupon request of `checkout`, if any. */
  ghost function AttemptSpec(coupons: map<CouponId, Coupon>, code: Option<string>, subtotal: real, now: int): Attempt
  {
    if code.None? then NotRequested else ApplySpec(coupons, None, Strip(code.value), subtotal, now)
  }

  /** The outcome of `checkout` and the order and line-item tables it
      leaves. `code` is the posted coupon code when the request asks to
      apply one. */
  ghost function CheckoutSpec(
    mode: Rounding, orders: map<OrderId, Order>, lineItems: map<OrderId, seq<LineItem>>,
    coupons: map<CouponId, Coupon>, products: map<ProductId, Product>,
    cart: CartData, user: UserId, oid: OrderId, code: Option<string>, now: int)
    : (r: (CheckoutResult, map<OrderId, Order>, map<OrderId, seq<LineItem>>))
    requires cart.Keyed()
    ensures r.0 == OrderNotFound <==> oid !in orders || orders[oid].user != user
    ensures !r.0.Priced? ==> r.1 == orders && r.2 == lineItems
  {
    if oid !in orders || orders[oid].user != user then (OrderNotFound, orders, lineItems)
    else
      var items := Reconcile(cart.ids, cart.lines, products);
      if items.None? then (CheckoutFailed, orders, lineItems)
      else
        PricedSpec(mode, orders, lineItems, coupons, oid, StoredItems(mode, items.value), code, now)
  }

  /** The outcome of `checkout` once the rebuilt line items are stored
      (`stored`, as the table holds them): the subtotal is read back from
      them. */
  ghost function PricedSpec(
    mode: Rounding, orders: map<OrderId, Order>, lineItems: map<OrderId, seq<LineItem>>,
    coupons: map<CouponId, Coupon>, oid: OrderId, stored: seq<LineItem>, code: Option<string>, now: int)
    : (r: (CheckoutResult, map<OrderId, Order>, map<OrderId, seq<LineItem>>))
    requires oid in orders
    ensures r.0 != OrderNotFound
    ensures !r.0.Priced? ==> r.1 == orders && r.2 == lineItems
    ensures r.0.Priced? ==> r.0.subtotal == ItemsTotal(stored) && r.2 == lineItems[oid := stored]
  {
    var subtotal := ItemsTotal(stored);
    var attempt := AttemptSpec(coupons, code, subtotal, now);
    if attempt == LookupFailed then (CheckoutFailed, orders, lineItems)
    else
      var total := Total(subtotal, AppliedCoupon(attempt, coupons));
      (Priced(subtotal, subtotal - total, total, attempt),
       orders[oid := PricedOrder(mode, orders[oid], subtotal, attempt, coupons)],
       lineItems[oid := stored])
  }

  /** A priced checkout charges the subtotal of the stored items, a whole
      number of cents within half a cent per item of the cart page's total
      and equal to it when the cart's prices are whole cents, less the
      capped discount of a coupon applied in this request and of no other:
      the coupon the order had before is detached, so the once-per-user
      check can never refuse the code. The order stores the total rounded
      to cents, which is the subtotal itself without a coupon. Only this
      order and its items change. */
  lemma CheckoutCharges(
    mode: Rounding, orders: map<OrderId, Order>, lineItems: map<OrderId, seq<LineItem>>,
    coupons: map<CouponId, Coupon>, products: map<ProductId, Product>,
    cart: CartData, user: UserId, oid: OrderId, code: Option<string>, now: int)
    requires cart.Keyed()
    requires CheckoutSpec(mode, orders, lineItems, coupons, products, cart, user, oid, code, now).0.Priced?
    ensures oid in orders && orders[oid].user == user
    ensures AllIn(Present(cart.ids, products), cart.lines)
    ensures var (r, orders', lineItems') := CheckoutSpec(mode, orders, lineItems, coupons, products, cart, user, oid, code, now);
      var cartTotal := LinesTotal(Present(cart.ids, products), cart.lines);
      var n := |Present(cart.ids, products)| as real;
      IsCents(r.subtotal) && cartTotal - 0.005 * n <= r.subtotal <= cartTotal + 0.005 * n
      && (CentPrices(cart.lines) ==> r.subtotal == cartTotal)
      && oid in lineItems' && r.subtotal == ItemsTotal(lineItems'[oid])
      && r.total == r.subtotal - r.discount
      && r.attempt != Refused(AlreadyApplied)
      && (code.None? <==> r.attempt == NotRequested)
      && oid in orders' && orders'[oid].amount == ToCents(mode, r.total) && orders'[oid].user == user
      && IsCents(orders'[oid].amount) && r.total - 0.005 <= orders'[oid].amount <= r.total + 0.005
      && (r.attempt.Applied? ==>
            r.attempt.coupon in coupons && orders'[oid].coupon == Some(r.attempt.coupon)
            && r.discount == Discount(r.subtotal, coupons[r.attempt.coupon]))
      && (!r.attempt.Applied? ==> orders'[oid].coupon == None && r.discount == 0.0 && orders'[oid].amount == r.subtotal)
      && orders' == orders[oid := orders'[oid]]
      && lineItems' == lineItems[oid := StoredItems(mode, Reconcile(cart.ids, cart.lines, products).value)]
  {
    var items := Reconcile(cart.ids, cart.lines, products).value;
    assert CheckoutSpec(mode, orders, lineItems, coupons, products, cart, user, oid, code, now)
      == PricedSpec(mode, orders, lineItems, coupons, oid, StoredItems(mode, items), code, now);
    PricedCharges(mode, orders, lineItems, coupons, oid, StoredItems(mode, items), code, now);
    StoredSubtotal(mode, cart.ids, cart.lines, products);
    CentsKept(mode, ItemsTotal(StoredItems(mode, items)));
    CentsSpec(mode, CheckoutSpec(mode, orders, lineItems, coupons, products, cart, user, oid, code, now).0.total);
  }

  /** A priced order is charged the subtotal of its stored items less the
      discount of the coupon applied in this request, if any, and stores
      that total rounded to cents. */
  lemma PricedCharges(
    mode: Rounding, orders: map<OrderId, Order>, lineItems: map<OrderId, seq<LineItem>>,
    coupons: map<CouponId, Coupon>, oid: OrderId, stored: seq<LineItem>, code: Option<string>, now: int)
    requires oid in orders
    requires PricedSpec(mode, orders, lineItems, coupons, oid, stored, code, now).0.Priced?
    ensures var (r, orders', lineItems') := PricedSpec(mode, orders, lineItems, coupons, oid, stored, code, now);
      r.subtotal == ItemsTotal(stored)
      && r.total == r.subtotal - r.discount
      && r.attempt != Refused(AlreadyApplied)
      && (code.None? <==> r.attempt == NotRequested)
      && oid in orders' && orders'[oid].amount == ToCents(mode, r.total) && orders'[oid].user == orders[oid].user
      && (r.attempt.Applied? ==>
            r.attempt.coupon in coupons && orders'[oid].coupon == Some(r.attempt.coupon)
            && r.discount == Discount(r.subtotal, coupons[r.attempt.coupon]))
      && (!r.attempt.Applied? ==> orders'[oid].coupon == None && r.discount == 0.0 && r.total == r.subtotal)
      && orders' == orders[oid := orders'[oid]]
      && lineItems' == lineItems[oid := stored]
  {
    if code.Some? {
      ApplyOnlySuccessAttaches(coupons, None, Strip(code.value), ItemsTotal(stored), now);
    }
  }

  /** `checkout` fails exactly when a line of a product that still exists
      cannot be read, or the stripped code matches several active coupons. */
  lemma CheckoutFailsWhen(
    mode: Rounding, orders: map<OrderId, Order>, lineItems: map<OrderId, seq<LineItem>>,
    coupons: map<CouponId, Coupon>, products: map<ProductId, Product>,
    cart: CartData, user: UserId, oid: OrderId, code: Option<string>, now: int)
    requires cart.Keyed() && oid in orders && orders[oid].user == user
    ensures var r := CheckoutSpec(mode, orders, lineItems, coupons, products, cart, user, oid, code, now);
      r.0 != OrderNotFound
      && (r.0 == CheckoutFailed <==>
            (exists i | 0 <= i < |cart.ids| && cart.ids[i] in products :: !Usable(cart.lines[cart.ids[i]]))
            || (code.Some? && |Matching(coupons, Strip(code.value))| > 1))
      && (r.0 == CheckoutFailed ==> r.1 == orders && r.2 == lineItems)
  {
    ReconcileDefined(cart.ids, cart.lines, products);
    var items := Reconcile(cart.ids, cart.lines, products);
    if items.Some? && code.Some? {
      ApplyChecksInOrder(coupons, None, Strip(code.value), ItemsTotal(StoredItems(mode, items.value)), now);
    }
  }

  /** `checkout`. The order's updates are written as the view writes them
      and undone if the request fails, as the transaction is rolled back. */
  method DoCheckout(s: Session, db: Store, user: UserId, oid: OrderId, code: Option<string>, now: int)
    returns (r: CheckoutResult)
    requires s.Valid() && db.Valid()
    modifies db`orders, db`lineItems
    ensures db.Valid()
    ensures (r, db.orders, db.lineItems) ==
      CheckoutSpec(db.rounding, old(db.orders), old(db.lineItems), db.coupons, db.products, CartOf(s.cart), user, oid, code, now)
  {
    if oid !in db.orders || db.orders[oid].user != user {
      return OrderNotFound;
    }
    r := CheckoutOwned(s, db, oid, code, now);
  }

  /** `checkout` on an order of the requesting user. */
  method CheckoutOwned(s: Session, db: Store, oid: OrderId, code: Option<string>, now: int)
    returns (r: CheckoutResult)
    requires s.Valid() && db.Valid() && oid in db.orders
    modifies db`orders, db`lineItems
    ensures db.Valid()
    ensures (r, db.orders, db.lineItems) ==
      CheckoutSpec(db.rounding, old(db.orders), old(db.lineItems), db.coupons, db.products, CartOf(s.cart), old(db.orders)[oid].user, oid, code, now)
  {
    var savedOrders, savedItems := db.orders, db.lineItems;
    ClearOrder(db, oid);
    var cart := CartOf(s.cart);
    var rebuilt := RebuildItems(cart.ids, cart.lines, db.products);
    if rebuilt.None? {
      db.orders, db.lineItems := savedOrders, savedItems;
      return CheckoutFailed;
    }
    r := StoreAndPrice(db, oid, rebuilt.value, code, now, savedOrders, savedItems);
  }

  /** Store the rebuilt items and their subtotal as the amount, then price
      the order. */
  method StoreAndPrice(db: Store, oid: OrderId, items: seq<LineItem>, code: Option<string>, now: int,
                       savedOrders: map<OrderId, Order>, savedItems: map<OrderId, seq<LineItem>>)
    returns (r: CheckoutResult)
    requires db.Valid() && oid in savedOrders
    requires forall id | id in savedOrders && savedOrders[id].coupon.Some? :: savedOrders[id].coupon.value in db.coupons
    requires db.orders == savedOrders[oid := savedOrders[oid].(coupon := None)]
    requires db.lineItems == savedItems[oid := []]
    modifies db`orders, db`lineItems
    ensures db.Valid()
    ensures (r, db.orders, db.lineItems) ==
      PricedSpec(db.rounding, savedOrders, savedItems, db.coupons, oid, StoredItems(db.rounding, items), code, now)
  {
    var stored, subtotal := StoreItems(db, oid, items);
    assert db.orders == savedOrders[oid := savedOrders[oid].(coupon := None, amount := ToCents(db.rounding, subtotal))];
    r := PriceItems(db, oid, stored, subtotal, code, now, savedOrders, savedItems);
  }

  /** Detach the order's coupon and delete its line items. */
  method ClearOrder(db: Store, oid: OrderId)
    requires db.Valid() && oid in db.orders
    modifies db`orders, db`lineItems
    ensures db.Valid()
    ensures db.orders == old(db.orders)[oid := old(db.orders)[oid].(coupon := None)]
    ensures db.lineItems == old(db.lineItems)[oid := []]
  {
    var order := db.orders[oid];
    if order.coupon.Some? {
      db.orders := db.orders[oid := order.(coupon := None)];
    }
    db.lineItems := db.lineItems[oid := []];
  }

  /** Price the order whose items are stored, with their subtotal stored
      as its amount; on failure restore the tables as they were before the
      order was cleared. */
  method PriceItems(db: Store, oid: OrderId, stored: seq<LineItem>, subtotal: real, code: Option<string>, now: int,
                    savedOrders: map<OrderId, Order>, savedItems: map<OrderId, seq<LineItem>>)
    returns (r: CheckoutResult)
    requires db.Valid() && oid in savedOrders && subtotal == ItemsTotal(stored)
    requires forall id | id in savedOrders && savedOrders[id].coupon.Some? :: savedOrders[id].coupon.value in db.coupons
    requires db.orders == savedOrders[oid := savedOrders[oid].(coupon := None, amount := ToCents(db.rounding, subtotal))]
    requires db.lineItems == savedItems[oid := stored]
    modifies db`orders, db`lineItems
    ensures db.Valid()
    ensures (r, db.orders, db.lineItems) == PricedSpec(db.rounding, savedOrders, savedItems, db.coupons, oid, stored, code, now)
  {
    var discount, total, attempt := PriceOrder(db, oid, subtotal, code, now);
    if attempt == LookupFailed {
      db.orders, db.lineItems := savedOrders, savedItems;
      return CheckoutFailed;
    }
    r := Priced(subtotal, discount, total, attempt);
    PricedOverwrites(db.rounding, savedOrders[oid], subtotal, attempt, db.coupons);
    assert db.orders == savedOrders[oid := PricedOrder(db.rounding, savedOrders[oid], subtotal, attempt, db.coupons)];
  }

  /** Pricing overwrites the coupon and the amount, so detaching the
      coupon and storing the subtotal first makes no difference. */
  lemma PricedOverwrites(mode: Rounding, o: Order, subtotal: real, attempt: Attempt, coupons: map<CouponId, Coupon>)
    requires attempt.Applied? ==> attempt.coupon in coupons
    ensures PricedOrder(mode, o.(coupon := None, amount := ToCents(mode, subtotal)), subtotal, attempt, coupons)
      == PricedOrder(mode, o, subtotal, attempt, coupons)
  {
  }

  /** Save the rebuilt items as the table stores them, read their subtotal
      back and store it as the order's amount. */
  method StoreItems(db: Store, oid: OrderId, items: seq<LineItem>) returns (stored: seq<LineItem>, subtotal: real)
    requires db.Valid() && oid in db.orders
    modifies db`orders, db`lineItems
    ensures db.Valid()
    ensures stored == StoredItems(db.rounding, items) && subtotal == ItemsTotal(stored)
    ensures db.lineItems == old(db.lineItems)[oid := stored]
    ensures db.orders == old(db.orders)[oid := old(db.orders)[oid].(amount := ToCents(db.rounding, subtotal))]
  {
    stored := StoredItems(db.rounding, items);
    db.lineItems := db.lineItems[oid := stored];
    subtotal := ItemsTotal(db.lineItems[oid]);
    var order := db.orders[oid];
    db.orders := db.orders[oid := order.(amount := ToCents(db.rounding, subtotal))];
  }

  /** The pricing half of `checkout`, on an order without a coupon: handle
      the coupon request, then take the capped discount of the coupon the
      order ends up with and store the total as its amount, rounded to
      cents by the column. The total returned is the unrounded one the page
      shows. */
  method PriceOrder(db: Store, oid: OrderId, subtotal: real, code: Option<string>, now: int)
    returns (discount: real, total: real, attempt: Attempt)
    requires db.Valid() && oid in db.orders && db.orders[oid].coupon.None? && db.orders[oid].amount == ToCents(db.rounding, subtotal)
    modifies db`orders
    ensures db.Valid()
    ensures attempt == AttemptSpec(db.coupons, code, subtotal, now)
    ensures attempt == LookupFailed ==> db.orders == old(db.orders)
    ensures attempt != LookupFailed ==>
      total == Total(subtotal, AppliedCoupon(attempt, db.coupons)) && discount == subtotal - total
      && db.orders == old(db.orders)[oid := PricedOrder(db.rounding, old(db.orders)[oid], subtotal, attempt, db.coupons)]
  {
    attempt := NotRequested;
    if code.Some? {
      attempt := TryCoupon(db, oid, code.value, subtotal, now);
      if attempt == LookupFailed {
        return 0.0, subtotal, attempt;
      }
    }
    discount, total := 0.0, subtotal;
    var order := db.orders[oid];
    if order.coupon.Some? {
      discount := Discount(subtotal, db.coupons[order.coupon.value]);
      total := subtotal - discount;
      db.orders := db.orders[oid := order.(amount := ToCents(db.rounding, total))];
    }
  }

  /** The coupon branch of `checkout`: look the stripped code up (an
      unknown code is reported without calling `apply_coupon_to_order`),
      then let `apply_coupon_to_order` strip, look up and check again. */
  method TryCoupon(db: Store, oid: OrderId, code: string, subtotal: real, now: int) returns (r: Attempt)
    requires db.Valid() && oid in db.orders && db.orders[oid].coupon.None?
    modifies db`orders
    ensures db.Valid()
    ensures r == ApplySpec(db.coupons, None, Strip(code), subtotal, now)
    ensures db.orders == if r.Applied? then old(db.orders)[oid := old(db.orders)[oid].(coupon := Some(r.coupon))] else old(db.orders)
  {
    var key := Strip(code);
    StripIdempotent(code);
    r := TryKey(db, oid, key, subtotal, now);
  }

  method TryKey(db: Store, oid: OrderId, key: string, subtotal: real, now: int) returns (r: Attempt)
    requires db.Valid() && oid in db.orders && db.orders[oid].coupon.None?
    requires Strip(key) == key
    modifies db`orders
    ensures db.Valid()
    ensures r == ApplySpec(db.coupons, None, key, subtotal, now)
    ensures db.orders == if r.Applied? then old(db.orders)[oid := old(db.orders)[oid].(coupon := Some(r.coupon))] else old(db.orders)
  {
    var found := LookupCoupon(db.coupons, key);
    match found {
      case NotFound => r := Refused(InvalidCode);
      case Ambiguous => r := LookupFailed;
      case Found(_) => r := ApplyCouponToOrder(db, oid, key, subtotal, now);
    }
  }
}
