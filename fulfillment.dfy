/** Cash on delivery and payment (core/views.py): `cod_checkout` takes
    the ordered quantities off the stock, ships the order unpaid and empties
    the cart; `cod_detail` shows the order's discount; `cod_accept` records
    the customer's acceptance; `payment_completed_view` marks a paid order. */
module Fulfillment {
  import opened Common
  import opened Models
  import opened Cart
  import opened Pricing
  import opened Checkout

  // ------------------------------------------------------------ stock

  /** No two products share a title, so `Product.objects.get(title=...)`
      finds at most one. */
  ghost predicate UniqueTitles(products: map<ProductId, Product>)
  {
    forall a, b | a in products && b in products && products[a].title == products[b].title :: a == b
  }

  /** The stock update of `cod_checkout` for one product and one ordered
      quantity: the stock drops by the quantity but not below 0, and a
      product left without stock is taken out of stock and back to draft. */
  function Deduct(p: Product, qty: nat): (r: Product)
    ensures r.title == p.title
    ensures r.stockCount == if qty < p.stockCount then p.stockCount - qty else 0
    ensures r.stockCount == 0 ==> !r.inStock && r.productStatus == Draft
    ensures r.stockCount > 0 ==> r == p.(stockCount := r.stockCount)
  {
    var n := FloorAtZero(p.stockCount - qty);
    if n == 0 then p.(stockCount := 0, inStock := false, productStatus := Draft) else p.(stockCount := n)
  }

  /** The products after the line `title × qty` is handled: the product of
      that title is updated, every other one is kept. */
  function DeductByTitle(products: map<ProductId, Product>, title: string, qty: nat): (r: map<ProductId, Product>)
    ensures r.Keys == products.Keys
    ensures forall id | id in r :: r[id].title == products[id].title
  {
    map id | id in products :: if products[id].title == title then Deduct(products[id], qty) else products[id]
  }

  /** The products after the loop of `cod_checkout` over the order's lines. */
  function StockAfter(products: map<ProductId, Product>, items: seq<LineItem>): (r: map<ProductId, Product>)
    ensures r.Keys == products.Keys
    ensures forall id | id in r :: r[id].title == products[id].title
  {
    if items == [] then products
    else
      var last := items[|items| - 1];
      DeductByTitle(StockAfter(products, items[..|items| - 1]), last.item, last.qty)
  }

  /** The quantity the lines order of the product titled `title`. */
  function QtyFor(items: seq<LineItem>, title: string): nat
  {
    if items == [] then 0
    else
      var last := items[|items| - 1];
      QtyFor(items[..|items| - 1], title) + (if last.item == title then last.qty else 0)
  }

  /** Some line names the product titled `title`. */
  predicate Names(items: seq<LineItem>, title: string)
  {
    items != [] && (Names(items[..|items| - 1], title) || items[|items| - 1].item == title)
  }

  /** What the loop has done to product `p` once `ordered` units of it were
      handled, `named` telling whether any line named it. */
  predicate DeductedFrom(q: Product, p: Product, ordered: nat, named: bool)
  {
    q.stockCount == FloorAtZero(p.stockCount - ordered)
    && q == p.(stockCount := q.stockCount, inStock := q.inStock, productStatus := q.productStatus)
    && (q.stockCount > 0 ==> q.inStock == p.inStock && q.productStatus == p.productStatus)
    && (named && q.stockCount == 0 ==> !q.inStock && q.productStatus == Draft)
    && (!named ==> q == p)
  }

  /** One more line naming the product keeps `DeductedFrom`. */
  lemma DeductStep(q: Product, p: Product, ordered: nat, named: bool, qty: nat)
    requires DeductedFrom(q, p, ordered, named)
    ensures DeductedFrom(Deduct(q, qty), p, ordered + qty, true)
  {
    FloorTwice(p.stockCount - ordered, qty);
  }

  /** After the loop each product has lost the whole quantity ordered under
      its title, floored at 0; a product the order names that ends without
      stock is out of stock and a draft; one that keeps stock keeps its
      stock flag and status; one the order does not name is untouched; no
      other field changes. (No product appears or disappears: see the
      contract of `StockAfter`.) */
  lemma {:induction false} StockAfterFloor(products: map<ProductId, Product>, items: seq<LineItem>, id: ProductId)
    requires id in products
    ensures var p := products[id];
      DeductedFrom(StockAfter(products, items)[id], p, QtyFor(items, p.title), Names(items, p.title))
  {
    if items != [] {
      var init := items[..|items| - 1];
      var last := items[|items| - 1];
      StockAfterFloor(products, init, id);
      var p, q0 := products[id], StockAfter(products, init)[id];
      var q := StockAfter(products, items)[id];
      if p.title == last.item {
        assert q == Deduct(q0, last.qty);
        DeductStep(q0, p, QtyFor(init, p.title), Names(init, p.title), last.qty);
      } else {
        assert q == q0;
      }
    }
  }

  /** Flooring after each of two decrements is flooring once. */
  lemma FloorTwice(x: int, d: nat)
    ensures FloorAtZero(FloorAtZero(x) - d) == FloorAtZero(x - d)
  {
  }

  /** The deduction never touches titles, so titles stay unique. */
  lemma DeductKeepsUnique(products: map<ProductId, Product>, title: string, qty: nat)
    requires UniqueTitles(products)
    ensures UniqueTitles(DeductByTitle(products, title, qty))
  {
    var r := DeductByTitle(products, title, qty);
    forall a, b | a in r && b in r && r[a].title == r[b].title
      ensures a == b
    {
      assert products[a].title == products[b].title;
    }
  }

  /** With unique titles, updating the one product of the title is the
      update of every product of that title. */
  lemma DeductOne(products: map<ProductId, Product>, id: ProductId, title: string, qty: nat)
    requires UniqueTitles(products) && id in products && products[id].title == title
    ensures products[id := Deduct(products[id], qty)] == DeductByTitle(products, title, qty)
  {
  }

  /** With no product of the title, nothing is updated. */
  lemma DeductNone(products: map<ProductId, Product>, title: string, qty: nat)
    requires forall id | id in products :: products[id].title != title
    ensures products == DeductByTitle(products, title, qty)
  {
  }

  /** One more line is one more deduction. */
  lemma StockAfterSnoc(products: map<ProductId, Product>, items: seq<LineItem>, i: nat)
    requires i < |items|
    ensures StockAfter(products, items[..i + 1]) == DeductByTitle(StockAfter(products, items[..i]), items[i].item, items[i].qty)
  {
    assert items[..i + 1][..i] == items[..i];
  }

  /** The loop of `cod_checkout`. */
  method DeductStock(db: Store, items: seq<LineItem>)
    requires UniqueTitles(db.products)
    modifies db`products
    ensures db.products == StockAfter(old(db.products), items)
  {
    var i := 0;
    while i < |items|
      invariant 0 <= i <= |items|
      invariant db.products == StockAfter(old(db.products), items[..i])
      invariant UniqueTitles(db.products)
    {
      DeductKeepsUnique(db.products, items[i].item, items[i].qty);
      DeductLine(db, items[i]);
      StockAfterSnoc(old(db.products), items, i);
      i := i + 1;
    }
    assert items[..|items|] == items;
  }

  /** One pass of that loop: fetch the product of the line's title, skip
      the line if there is none, and store the product's new stock. */
  method DeductLine(db: Store, item: LineItem)
    requires UniqueTitles(db.products)
    modifies db`products
    ensures db.products == DeductByTitle(old(db.products), item.item, item.qty)
  {
    var m := set id | id in db.products && db.products[id].title == item.item;
    if m == {} {
      forall id | id in db.products
        ensures db.products[id].title != item.item
      {
        assert id !in m;
      }
      DeductNone(db.products, item.item, item.qty);
      return;
    }
    assert exists id :: id in m by {
      if forall id :: id !in m {
        assert false;
      }
    }
    var id :| id in m;
    DeductOne(db.products, id, item.item, item.qty);
    db.products := db.products[id := Deduct(db.products[id], item.qty)];
  }

  // ------------------------------------------------------------ cod_checkout

  /** What `cod_checkout` answers. */
  datatype CodResult =
    | CodPlaced(oid: OrderId)  // redirect to the COD detail page
    | CodNoItems               // redirect to the cart with an error
    | CodNotFound              // 404
    | CodFailed                // 500: the posted id is not a number

  /** The order amount `cod_checkout` saves: the amount checkout priced,
      or, when it is not positive, the line totals quantized to cents with
      ties away from zero (a whole number of cents, which the column then
      keeps as it is). */
  function CodAmount(o: Order, items: seq<LineItem>): (r: real)
    ensures o.amount > 0.0 ==> r == o.amount
    ensures o.amount <= 0.0 ==> IsCents(r) && ItemsTotal(items) - 0.005 <= r <= ItemsTotal(items) + 0.005
  {
    if o.amount > 0.0 then o.amount
    else
      CentsSpec(HalfUp, ItemsTotal(items));
      ToCents(HalfUp, ItemsTotal(items))
  }

  /** The outcome of `cod_checkout` and the orders, products and session
      cart it leaves. `posted` is the `oid` field of the form: absent, or
      its text as `int()` reads it. */
  ghost function CodSpec(
    orders: map<OrderId, Order>, lineItems: map<OrderId, seq<LineItem>>,
    products: map<ProductId, Product>, cart: Option<CartData>,
    user: UserId, posted: Option<Field<int>>)
    : (r: (CodResult, map<OrderId, Order>, map<ProductId, Product>, Option<CartData>))
    ensures !r.0.CodPlaced? ==> r.1 == orders && r.2 == products && r.3 == cart
    ensures r.0 == CodFailed <==> posted.Some? && !posted.value.Parsed?
  {
    if posted.None? then (CodNotFound, orders, products, cart)
    else if !posted.value.Parsed? then (CodFailed, orders, products, cart)
    else
      var oid := posted.value.value;
      if oid !in orders || orders[oid].user != user then (CodNotFound, orders, products, cart)
      else
        var items := if oid in lineItems then lineItems[oid] else [];
        if items == [] then (CodNoItems, orders, products, cart)
        else
          var o := orders[oid];
          (CodPlaced(oid),
           orders[oid := o.(amount := CodAmount(o, items), paid := false, status := SHIPPED)],
           StockAfter(products, items),
           Some(CartData([], map[])))
  }

  /** `cod_checkout`. */
  method CodCheckout(s: Session, db: Store, user: UserId, posted: Option<Field<int>>) returns (r: CodResult)
    requires db.Valid() && UniqueTitles(db.products)
    modifies s, db`orders, db`products
    ensures db.Valid()
    ensures (r, db.orders, db.products, s.cart) ==
      CodSpec(old(db.orders), db.lineItems, old(db.products), old(s.cart), user, posted)
  {
    if posted.None? {
      return CodNotFound;
    }
    if !posted.value.Parsed? {
      return CodFailed;
    }
    var oid := posted.value.value;
    if oid !in db.orders || db.orders[oid].user != user {
      return CodNotFound;
    }
    var items := db.ItemsOf(oid);
    if items == [] {
      return CodNoItems;
    }
    var order := db.orders[oid];
    var amount := order.amount;
    if amount <= 0.0 {
      amount := ToCents(HalfUp, ItemsTotal(items));
    }
    DeductStock(db, items);
    db.orders := db.orders[oid := order.(amount := amount, paid := false, status := SHIPPED)];
    s.cart := Some(CartData([], map[]));
    r := CodPlaced(oid);
  }

  /** A placed COD order is shipped and unpaid with its coupon kept, its
      amount is positive whenever checkout priced it positive, the cart is
      empty, and no other order changes. */
  lemma CodPlacedEffects(
    orders: map<OrderId, Order>, lineItems: map<OrderId, seq<LineItem>>,
    products: map<ProductId, Product>, cart: Option<CartData>,
    user: UserId, posted: Option<Field<int>>)
    requires CodSpec(orders, lineItems, products, cart, user, posted).0.CodPlaced?
    ensures var (r, orders', products', cart') := CodSpec(orders, lineItems, products, cart, user, posted);
      posted == Some(Parsed(r.oid)) && r.oid in orders && orders[r.oid].user == user
      && r.oid in lineItems && lineItems[r.oid] != []
      && r.oid in orders' && orders'[r.oid].status == SHIPPED && !orders'[r.oid].paid
      && orders'[r.oid].coupon == orders[r.oid].coupon && orders'[r.oid].user == user
      && (orders[r.oid].amount > 0.0 ==> orders'[r.oid].amount == orders[r.oid].amount)
      && orders' == orders[r.oid := orders'[r.oid]]
      && products' == StockAfter(products, lineItems[r.oid])
      && cart' == Some(CartData([], map[])) && cart'.value.Valid()
  {
  }

  /** An order that checkout priced keeps the amount checkout stored
      through `cod_checkout` when that amount is positive, and is charged
      the subtotal of its items otherwise; its coupon is kept. */
  lemma CodKeepsCheckoutTotal(
    mode: Rounding, orders: map<OrderId, Order>, lineItems: map<OrderId, seq<LineItem>>,
    coupons: map<CouponId, Coupon>, products: map<ProductId, Product>,
    cart: CartData, user: UserId, oid: OrderId, code: Option<string>, now: int,
    sessionCart: Option<CartData>)
    requires cart.Keyed()
    requires var (r, orders', lineItems') := CheckoutSpec(mode, orders, lineItems, coupons, products, cart, user, oid, code, now);
      r.Priced? && lineItems'[oid] != []
    ensures var (r, orders', lineItems') := CheckoutSpec(mode, orders, lineItems, coupons, products, cart, user, oid, code, now);
      var (c, orders'', _, _) := CodSpec(orders', lineItems', products, sessionCart, user, Some(Parsed(oid)));
      var stored := ToCents(mode, r.total);
      c == CodPlaced(oid) && orders''[oid].amount == (if stored > 0.0 then stored else r.subtotal)
      && orders''[oid].coupon == orders'[oid].coupon
  {
    var (r, _, _) := CheckoutSpec(mode, orders, lineItems, coupons, products, cart, user, oid, code, now);
    CheckoutCharges(mode, orders, lineItems, coupons, products, cart, user, oid, code, now);
    CentsKept(HalfUp, r.subtotal);
  }

  // ------------------------------------------------------------ cod_detail

  /** The discount `cod_detail` shows for the order's items and coupon:
      `subtotal × pct / 100`, lowered to the coupon's cap, or 0. */
  function CodDiscount(items: seq<LineItem>, coupon: Option<Coupon>): (r: real)
    ensures coupon.None? ==> r == 0.0
    ensures coupon.Some? ==> r <= coupon.value.maxDiscount && r <= ItemsTotal(items) * coupon.value.discount / 100.0
  {
    if coupon.None? then 0.0
    else
      var raw := ItemsTotal(items) * coupon.value.discount / 100.0;
      if raw > coupon.value.maxDiscount then coupon.value.maxDiscount else raw
  }

  /** `cod_detail`: the discount of the user's order, or `None` for 404. */
  function CodDetail(orders: map<OrderId, Order>, lineItems: map<OrderId, seq<LineItem>>,
                     coupons: map<CouponId, Coupon>, user: UserId, oid: OrderId): (r: Option<real>)
    requires oid in orders && orders[oid].coupon.Some? ==> orders[oid].coupon.value in coupons
    ensures r.Some? <==> oid in orders && orders[oid].user == user
    ensures r.Some? && orders[oid].coupon.None? ==> r.value == 0.0
  {
    if oid !in orders || orders[oid].user != user then None
    else
      var items := if oid in lineItems then lineItems[oid] else [];
      var c := orders[oid].coupon;
      Some(CodDiscount(items, if c.Some? then Some(coupons[c.value]) else None))
  }

  /** After a priced checkout the detail page shows the discount checkout
      took off, and the total it charged is the subtotal less that
      discount. */
  lemma CodDetailShowsCheckoutDiscount(
    mode: Rounding, orders: map<OrderId, Order>, lineItems: map<OrderId, seq<LineItem>>,
    coupons: map<CouponId, Coupon>, products: map<ProductId, Product>,
    cart: CartData, user: UserId, oid: OrderId, code: Option<string>, now: int)
    requires cart.Keyed()
    requires CheckoutSpec(mode, orders, lineItems, coupons, products, cart, user, oid, code, now).0.Priced?
    ensures var (r, orders', lineItems') := CheckoutSpec(mode, orders, lineItems, coupons, products, cart, user, oid, code, now);
      oid in orders' && (orders'[oid].coupon.Some? ==> orders'[oid].coupon.value in coupons)
      && CodDetail(orders', lineItems', coupons, user, oid) == Some(r.discount)
      && r.total == r.subtotal - r.discount
  {
    CheckoutCharges(mode, orders, lineItems, coupons, products, cart, user, oid, code, now);
    var (r, orders', lineItems') := CheckoutSpec(mode, orders, lineItems, coupons, products, cart, user, oid, code, now);
    var c := orders'[oid].coupon;
    var coupon := if c.Some? then Some(coupons[c.value]) else None;
    assert CodDetail(orders', lineItems', coupons, user, oid) == Some(CodDiscount(lineItems'[oid], coupon));
    if r.attempt.Applied? {
      CodDiscountIsDiscount(lineItems'[oid], coupons[r.attempt.coupon], r.subtotal);
    }
  }

  /** `cod_detail` computes the discount as `checkout` does. */
  lemma CodDiscountIsDiscount(items: seq<LineItem>, c: Coupon, subtotal: real)
    requires ItemsTotal(items) == subtotal
    ensures CodDiscount(items, Some(c)) == Discount(subtotal, c)
    ensures CodDiscount(items, None) == 0.0
  {
  }

  // ------------------------------------------------------------ cod_accept

  /** `cod_accept`: the user's order goes back to processing, unpaid.
      Returns whether the order was found. */
  method CodAccept(db: Store, user: UserId, oid: OrderId) returns (found: bool)
    requires db.Valid()
    modifies db`orders
    ensures db.Valid()
    ensures found <==> oid in old(db.orders) && old(db.orders)[oid].user == user
    ensures db.orders ==
      if found then old(db.orders)[oid := old(db.orders)[oid].(status := PROCESSING, paid := false)]
      else old(db.orders)
  {
    found := oid in db.orders && db.orders[oid].user == user;
    if found {
      var order := db.orders[oid];
      db.orders := db.orders[oid := order.(status := PROCESSING, paid := false)];
    }
  }

  // ------------------------------------------------------------ payment

  /** The fields of `CartOrder`; `oid` is not one of them. */
  const OrderFields: set<string> := {"id", "user", "vendor", "amount", "coupon", "paid_status", "order_status", "order_date"}

  /** The payment update: an unpaid order becomes paid and processing; a
      paid order is left as it is. */
  function MarkPaid(o: Order): (r: Order)
    ensures r.paid
    ensures o.paid ==> r == o
    ensures !o.paid ==> r == o.(paid := true, status := PROCESSING)
  {
    if o.paid then o else o.(paid := true, status := PROCESSING)
  }

  /** Marking an order paid twice is marking it once. */
  lemma MarkPaidIdempotent(o: Order)
    ensures MarkPaid(MarkPaid(o)) == MarkPaid(o)
  {
  }

  /** `payment_completed_view` as written and routed: `routeArg` is the
      `oid` the URL pattern passes, and the pattern passes none, so the
      call fails; were one passed, `get(oid=...)` names a field the order
      does not have and fails as well. `None` is the failed request. */
  function PaymentCompletedAsWritten(routeArg: Option<OrderId>, orders: map<OrderId, Order>): Option<Order>
  {
    if routeArg.None? || "oid" !in OrderFields || routeArg.value !in orders then None
    else Some(MarkPaid(orders[routeArg.value]))
  }

  /** The view as written never completes a payment, even for an existing
      unpaid order, while the intended view marks that order paid. */
  lemma PaymentCompletedNeverSucceeds(routeArg: Option<OrderId>, orders: map<OrderId, Order>)
    ensures PaymentCompletedAsWritten(routeArg, orders) == None
    ensures var o := Order(1, "v", 10.0, None, false, PENDING);
      PaymentCompletedAsWritten(Some(7), map[7 := o]) == None
      && PaymentCompleted(map[7 := o], 7) == Some(o.(paid := true, status := PROCESSING))
  {
    assert "oid" !in OrderFields by {
      assert "oid" != "id" && "oid" != "user" && "oid" != "vendor" && "oid" != "amount";
      assert "oid" != "coupon" && "oid" != "paid_status" && "oid" != "order_status" && "oid" != "order_date";
    }
  }

  /** The intended `payment_completed_view`: the order with that id, marked
      paid, or `None` for a missing order. */
  function PaymentCompleted(orders: map<OrderId, Order>, oid: OrderId): (r: Option<Order>)
    ensures r.None? <==> oid !in orders
    ensures r.Some? ==> r.value.paid && r.value.user == orders[oid].user && r.value.amount == orders[oid].amount
  {
    if oid in orders then Some(MarkPaid(orders[oid])) else None
  }

  /** The intended view on the database: mark order `oid` paid. */
  method CompletePayment(db: Store, oid: OrderId) returns (shown: Option<Order>)
    requires db.Valid()
    modifies db`orders
    ensures db.Valid()
    ensures shown == PaymentCompleted(old(db.orders), oid)
    ensures db.orders == if oid in old(db.orders) then old(db.orders)[oid := shown.value] else old(db.orders)
  {
    if oid !in db.orders {
      return None;
    }
    var order := db.orders[oid];
    if !order.paid {
      order := order.(paid := true, status := PROCESSING);
      db.orders := db.orders[oid := order];
    }
    shown := Some(order);
  }
}
