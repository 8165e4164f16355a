/** The session cart (core/views.py): `add_to_cart`, `delete_item_from_cart`,
    `update_cart` and `cart_view`. The cart is the session value
    `cart_data_obj`, a dictionary from product id to a line; its insertion
    order is kept as `ids`.

    A request that raises is answered with status 500, and the session
    middleware does not save the session of such a response, so every
    failure below leaves the session (and the database) as it was. */
module Cart {
  import opened Common
  import opened Models

  /** One cart line: the request text as `int()`/`float()` reads it, and
      the subtotal once `cart_view` or `update_cart` has stored one. */
  datatype CartItem = CartItem(
    title: string,
    qty: Field<int>,
    price: Field<real>,
    image: string,
    subtotal: Option<real>)

  /** The session dictionary: keys in insertion order, and the lines. */
  datatype CartData = CartData(ids: seq<ProductId>, lines: map<ProductId, CartItem>)
  {
    /** `ids` lists exactly the keys. */
    ghost predicate Keyed()
    {
      forall id :: id in lines <==> id in ids
    }

    /** `ids` lists every key once. */
    ghost predicate Valid()
    {
      Distinct(ids) && Keyed()
    }
  }

  /** The part of the user's session the cart views read and write. */
  class Session {
    var cart: Option<CartData>

    ghost predicate Valid()
      reads this
    {
      cart.Some? ==> cart.value.Valid()
    }

    constructor ()
      ensures cart == None && Valid()
    {
      cart := None;
    }
  }

  /** Every id has a line. */
  ghost predicate AllIn(ids: seq<ProductId>, lines: map<ProductId, CartItem>)
  {
    forall i | 0 <= i < |ids| :: ids[i] in lines
  }

  // ---------------------------------------------------------------- add

  /** The line `add_to_cart` builds from the query string. */
  function RequestLine(title: string, qty: Field<int>, price: Field<real>, image: string): CartItem
  {
    CartItem(title, qty, price, image, None)
  }

  /** The cart after `add_to_cart`; `None` when `int(qty)` raises on an
      id that is already in the cart. */
  function AfterAdd(cart: Option<CartData>, id: ProductId, item: CartItem): (r: Option<CartData>)
    ensures r.None? <==> cart.Some? && id in cart.value.lines && !item.qty.Parsed?
    ensures r.Some? ==> id in r.value.lines && r.value.lines[id].qty == item.qty
  {
    if cart.None? then Some(CartData([id], map[id := item]))
    else if id in cart.value.lines then
      if item.qty.Parsed? then Some(cart.value.(lines := cart.value.lines[id := cart.value.lines[id].(qty := item.qty)]))
      else None
    else Some(CartData(cart.value.ids + [id], cart.value.lines[id := item]))
  }

  /** Adding fails exactly when the id is already there and its new
      quantity is not a number; otherwise the cart stays well formed and
      holds the id. */
  lemma AddKeepsCartValid(cart: Option<CartData>, id: ProductId, item: CartItem)
    requires cart.Some? ==> cart.value.Valid()
    ensures AfterAdd(cart, id, item).None? <==> cart.Some? && id in cart.value.lines && !item.qty.Parsed?
    ensures var r := AfterAdd(cart, id, item); r.Some? ==> r.value.Valid() && id in r.value.lines
  {
    if cart.Some? && id !in cart.value.lines {
      var ids := cart.value.ids + [id];
      forall i, j | 0 <= i < j < |ids| ensures ids[i] != ids[j] {
        if j == |ids| - 1 {
          assert ids[i] in cart.value.ids;
        }
      }
    }
  }

  /** Adding an id already in the cart overwrites its quantity (it does
      not add to it) and keeps its title, price, image, stale subtotal,
      position and every other line. */
  lemma AddExistingOverwritesQty(cart: CartData, id: ProductId, item: CartItem)
    requires cart.Valid() && id in cart.lines && item.qty.Parsed?
    ensures var r := AfterAdd(Some(cart), id, item).value;
      r.ids == cart.ids && r.lines.Keys == cart.lines.Keys
      && r.lines[id].qty == item.qty
      && r.lines[id] == cart.lines[id].(qty := item.qty)
      && (forall k | k in cart.lines && k != id :: r.lines[k] == cart.lines[k])
  {
  }

  /** Adding a new id appends exactly one line, the requested one. */
  lemma AddNewAppends(cart: Option<CartData>, id: ProductId, item: CartItem)
    requires cart.Some? ==> cart.value.Valid() && id !in cart.value.lines
    ensures var r := AfterAdd(cart, id, item).value;
      var before := if cart.Some? then cart.value.ids else [];
      r.ids == before + [id] && r.lines[id] == item
      && (cart.Some? ==> forall k | k in cart.value.lines :: k in r.lines && r.lines[k] == cart.value.lines[k])
  {
  }

  datatype AddResult = Added(count: nat) | AddFailed

  /** `add_to_cart`: the reply carries the number of lines. */
  method AddToCart(s: Session, id: ProductId, title: string, qty: Field<int>, price: Field<real>, image: string)
    returns (r: AddResult)
    requires s.Valid()
    modifies s
    ensures s.Valid()
    ensures var after := AfterAdd(old(s.cart), id, RequestLine(title, qty, price, image));
      if after.Some? then s.cart == after && r == Added(|after.value.ids|)
      else s.cart == old(s.cart) && r == AddFailed
  {
    var item := RequestLine(title, qty, price, image);
    AddKeepsCartValid(s.cart, id, item);
    if s.cart.None? {
      s.cart := Some(CartData([id], map[id := item]));
    } else if id in s.cart.value.lines {
      if !qty.Parsed? {
        return AddFailed;
      }
      var c := s.cart.value;
      s.cart := Some(c.(lines := c.lines[id := c.lines[id].(qty := qty)]));
    } else {
      var c := s.cart.value;
      s.cart := Some(CartData(c.ids + [id], c.lines[id := item]));
    }
    r := Added(|s.cart.value.ids|);
  }

  // ------------------------------------------------------------- delete

  /** The cart without `id`; the other lines keep their order. */
  function Remove(c: CartData, id: ProductId): (r: CartData)
    requires c.Valid()
    ensures r.Valid() && id !in r.lines
    ensures r.lines == c.lines - {id}
    ensures forall k :: k in r.ids <==> k in c.ids && k != id
    ensures id !in c.lines ==> r == c
  {
    if id !in c.lines then c
    else
      var keep := (k: ProductId) => k != id;
      CartData(Filter(c.ids, keep), c.lines - {id})
  }

  /** `int(qty) * float(price)`, or `None` when either raises. */
  function LineValue(item: CartItem): Option<real>
  {
    if item.qty.Parsed? && item.price.Parsed? then Some(Times(item.qty.value, item.price.value)) else None
  }

  /** The total `delete_item_from_cart` accumulates over `ids`; `None`
      as soon as one line does not parse. */
  function ValueOf(ids: seq<ProductId>, lines: map<ProductId, CartItem>): Option<real>
    requires AllIn(ids, lines)
  {
    if ids == [] then Some(0.0)
    else
      var t := ValueOf(ids[..|ids| - 1], lines);
      var v := LineValue(lines[ids[|ids| - 1]]);
      if t.Some? && v.Some? then Some(t.value + v.value) else None
  }

  /** The total exists exactly when every line parses. */
  lemma {:induction false} ValueOfDefined(ids: seq<ProductId>, lines: map<ProductId, CartItem>)
    requires AllIn(ids, lines)
    ensures ValueOf(ids, lines).Some? <==> forall i | 0 <= i < |ids| :: LineValue(lines[ids[i]]).Some?
  {
    if ids != [] {
      var init := ids[..|ids| - 1];
      ValueOfDefined(init, lines);
      assert forall i | 0 <= i < |init| :: init[i] == ids[i];
    }
  }

  /** The loop of `delete_item_from_cart` that totals the remaining lines;
      it stops at the first line whose `int`/`float` raises. */
  method TotalValue(ids: seq<ProductId>, lines: map<ProductId, CartItem>) returns (total: Option<real>)
    requires AllIn(ids, lines)
    ensures total == ValueOf(ids, lines)
  {
    var sum := 0.0;
    var i := 0;
    while i < |ids|
      invariant 0 <= i <= |ids|
      invariant ValueOf(ids[..i], lines) == Some(sum)
    {
      var item := lines[ids[i]];
      assert ids[..i + 1][..i] == ids[..i];
      if !(item.qty.Parsed? && item.price.Parsed?) {
        ValueOfDefined(ids, lines);
        return None;
      }
      var value := Times(item.qty.value, item.price.value);
      assert LineValue(lines[ids[..i + 1][i]]) == Some(value);
      assert ValueOf(ids[..i + 1], lines) == Some(sum + value);
      sum := sum + value;
      i := i + 1;
    }
    assert ids[..|ids|] == ids;
    total := Some(sum);
  }

  datatype DeleteResult = Removed(total: real, count: nat) | DeleteFailed

  /** `delete_item_from_cart`: drop the line if it is there, then total
      what remains; a cart missing from the session, or a line that does
      not parse, makes the request fail. */
  method DeleteItemFromCart(s: Session, id: ProductId) returns (r: DeleteResult)
    requires s.Valid()
    modifies s
    ensures s.Valid()
    ensures old(s.cart).None? ==> r == DeleteFailed && s.cart == old(s.cart)
    ensures old(s.cart).Some? ==>
      var c := Remove(old(s.cart).value, id);
      var v := ValueOf(c.ids, c.lines);
      if v.Some? then r == Removed(v.value, |c.ids|) && s.cart == Some(c)
      else r == DeleteFailed && s.cart == old(s.cart)
  {
    if s.cart.None? {
      return DeleteFailed;
    }
    var c := Remove(s.cart.value, id);
    var total := TotalValue(c.ids, c.lines);
    if total.None? {
      return DeleteFailed;
    }
    s.cart := Some(c);
    r := Removed(total.value, |c.ids|);
  }

  // ------------------------------------------------------------- update

  /** The advisory message `update_cart` returns with a clamped quantity. */
  datatype Advice = NoAdvice | AtLeastOne | OnlyInStock(count: nat)

  /** The clamp of `update_cart`: below 1 becomes 1, above the stock
      becomes the stock, each with its message. */
  function Clamp(q: int, stock: nat): (r: (int, Advice))
    ensures r.1 == NoAdvice <==> r.0 == q
    ensures r.1 == NoAdvice <==> 1 <= q <= stock
    ensures r.1 == AtLeastOne <==> q < 1
    ensures q < 1 ==> r == (1, AtLeastOne)
    ensures 1 <= q && q > stock ==> r == (stock, OnlyInStock(stock))
  {
    if q < 1 then (1, AtLeastOne)
    else if q > stock then (stock, OnlyInStock(stock))
    else (q, NoAdvice)
  }

  /** With stock the stored quantity lies in [1, stock]; with none it is
      1 for a request below 1 and 0 otherwise. */
  lemma ClampBounds(q: int, stock: nat)
    ensures stock >= 1 ==> 1 <= Clamp(q, stock).0 <= stock
    ensures stock == 0 ==> Clamp(q, stock).0 == (if q < 1 then 1 else 0)
  {
  }

  /** Clamping again a quantity already clamped against some stock changes
      nothing and gives no message. */
  lemma ClampStable(q: int, stock: nat)
    requires stock >= 1
    ensures Clamp(Clamp(q, stock).0, stock) == (Clamp(q, stock).0, NoAdvice)
  {
  }

  /** `int(request.GET.get("qty", 1))`; `None` when `int` raises. */
  function RequestedQty(param: Option<Field<int>>): Option<int>
  {
    match param
    case None => Some(1)
    case Some(Parsed(q)) => Some(q)
    case Some(_) => None
  }

  /** `sum(float(item["subtotal"]) for item in cart.values())`; `None`
      when a line has no stored subtotal. */
  function SubtotalSum(ids: seq<ProductId>, lines: map<ProductId, CartItem>): Option<real>
    requires AllIn(ids, lines)
  {
    if ids == [] then Some(0.0)
    else
      var t := SubtotalSum(ids[..|ids| - 1], lines);
      var v := lines[ids[|ids| - 1]].subtotal;
      if t.Some? && v.Some? then Some(t.value + v.value) else None
  }

  /** The sum exists exactly when every line carries a subtotal. */
  lemma {:induction false} SubtotalSumDefined(ids: seq<ProductId>, lines: map<ProductId, CartItem>)
    requires AllIn(ids, lines)
    ensures SubtotalSum(ids, lines).Some? <==> forall i | 0 <= i < |ids| :: lines[ids[i]].subtotal.Some?
  {
    if ids != [] {
      var init := ids[..|ids| - 1];
      SubtotalSumDefined(init, lines);
      assert forall i | 0 <= i < |init| :: init[i] == ids[i];
    }
  }

  /** The loop of `update_cart` that adds up the stored subtotals; a line
      without one raises `KeyError`, which fails the request. */
  method SumSubtotals(ids: seq<ProductId>, lines: map<ProductId, CartItem>) returns (total: Option<real>)
    requires AllIn(ids, lines)
    ensures total == SubtotalSum(ids, lines)
  {
    var sum := 0.0;
    var i := 0;
    while i < |ids|
      invariant 0 <= i <= |ids|
      invariant SubtotalSum(ids[..i], lines) == Some(sum)
    {
      var item := lines[ids[i]];
      assert ids[..i + 1][..i] == ids[..i];
      if item.subtotal.None? {
        SubtotalSumDefined(ids, lines);
        return None;
      }
      sum := sum + item.subtotal.value;
      i := i + 1;
    }
    assert ids[..|ids|] == ids;
    total := Some(sum);
  }

  /** Replacing one line's subtotal moves the sum by exactly the difference. */
  lemma {:induction false} SubtotalSumReplace(ids: seq<ProductId>, lines: map<ProductId, CartItem>, id: ProductId, line: CartItem)
    requires AllIn(ids, lines) && Distinct(ids) && id in lines
    requires lines[id].subtotal.Some? && line.subtotal.Some?
    requires SubtotalSum(ids, lines).Some?
    ensures AllIn(ids, lines[id := line])
    ensures SubtotalSum(ids, lines[id := line]) ==
      Some(SubtotalSum(ids, lines).value + (if id in ids then line.subtotal.value - lines[id].subtotal.value else 0.0))
  {
    var lines' := lines[id := line];
    if ids != [] {
      var init := ids[..|ids| - 1];
      var last := ids[|ids| - 1];
      assert forall i | 0 <= i < |init| :: init[i] == ids[i];
      assert SubtotalSum(init, lines).Some?;
      SubtotalSumReplace(init, lines, id, line);
      if last == id {
        assert id !in init;
      }
    }
  }

  /** The outcome of `update_cart` and the cart it leaves in the session. */
  function UpdateSpec(cart: Option<CartData>, products: map<ProductId, Product>, id: ProductId, param: Option<Field<int>>): (r: (UpdateResult, Option<CartData>))
    requires cart.Some? ==> cart.value.Valid()
    ensures !r.0.Updated? ==> r.1 == cart
    ensures r.0 == ProductNotFound <==> RequestedQty(param).Some? && id !in products
  {
    var req := RequestedQty(param);
    if req.None? then (UpdateFailed, cart)
    else if id !in products then (ProductNotFound, cart)
    else
      var stock := products[id].stockCount;
      var (q, advice) := Clamp(req.value, stock);
      if cart.None? || id !in cart.value.lines || !cart.value.lines[id].price.Parsed? then (UpdateFailed, cart)
      else
        var c := cart.value;
        var line := c.lines[id];
        var sub := Times(q, line.price.value);
        var c' := c.(lines := c.lines[id := line.(qty := Parsed(q), subtotal := Some(sub))]);
        var total := SubtotalSum(c'.ids, c'.lines);
        if total.None? then (UpdateFailed, cart) else (Updated(sub, total.value, q, stock, advice), Some(c'))
  }

  datatype UpdateResult =
    | Updated(subtotal: real, cartTotal: real, qty: int, stock: nat, advice: Advice)
    | ProductNotFound
    | UpdateFailed

  /** A successful update stores the clamped quantity and `qty × price`
      on that line only, keeps the line's other fields and every other
      line, and reports the sum of the stored subtotals. */
  lemma UpdateSetsLine(cart: Option<CartData>, products: map<ProductId, Product>, id: ProductId, param: Option<Field<int>>)
    requires cart.Some? ==> cart.value.Valid()
    requires UpdateSpec(cart, products, id, param).0.Updated?
    ensures var (r, after) := UpdateSpec(cart, products, id, param);
      var c := cart.value;
      var line := c.lines[id];
      cart.Some? && after.Some? && id in c.lines && id in products && line.price.Parsed?
      && r.stock == products[id].stockCount
      && (r.stock >= 1 ==> 1 <= r.qty <= r.stock)
      && (r.qty, r.advice) == Clamp(RequestedQty(param).value, r.stock)
      && r.subtotal == Times(r.qty, line.price.value)
      && after.value.ids == c.ids && after.value.lines.Keys == c.lines.Keys
      && after.value.lines[id] == line.(qty := Parsed(r.qty), subtotal := Some(r.subtotal))
      && (forall k | k in c.lines && k != id :: after.value.lines[k] == c.lines[k])
      && SubtotalSum(after.value.ids, after.value.lines) == Some(r.cartTotal)
  {
    ClampBounds(RequestedQty(param).value, products[id].stockCount);
  }

  /** Every other outcome leaves the cart as it was; the 404 happens
      exactly for a well-formed quantity and an unknown product. */
  lemma UpdateOtherwiseUnchanged(cart: Option<CartData>, products: map<ProductId, Product>, id: ProductId, param: Option<Field<int>>)
    requires cart.Some? ==> cart.value.Valid()
    ensures var (r, after) := UpdateSpec(cart, products, id, param);
      (!r.Updated? ==> after == cart)
      && (r == ProductNotFound <==> RequestedQty(param).Some? && id !in products)
      && (after.Some? ==> after.value.Valid())
  {
  }

  /** `update_cart`. */
  method UpdateCart(s: Session, db: Store, id: ProductId, param: Option<Field<int>>) returns (r: UpdateResult)
    requires s.Valid()
    modifies s
    ensures s.Valid()
    ensures (r, s.cart) == UpdateSpec(old(s.cart), db.products, id, param)
  {
    var req := RequestedQty(param);
    if req.None? {
      return UpdateFailed;
    }
    if id !in db.products {
      return ProductNotFound;
    }
    var stock := db.products[id].stockCount;
    var (q, advice) := Clamp(req.value, stock);
    if s.cart.None? || id !in s.cart.value.lines || !s.cart.value.lines[id].price.Parsed? {
      return UpdateFailed;
    }
    var c := s.cart.value;
    var line := c.lines[id];
    var sub := Times(q, line.price.value);
    var lines := c.lines[id := line.(qty := Parsed(q), subtotal := Some(sub))];
    var total := SumSubtotals(c.ids, lines);
    if total.None? {
      return UpdateFailed;
    }
    s.cart := Some(c.(lines := lines));
    r := Updated(sub, total.value, q, stock, advice);
  }

  // --------------------------------------------------------------- view

  /** The subtotal `cart_view` stores: `qty × price`, where an empty price
      counts as 0, and 0 when `float` or `int` raises. */
  function ViewSubtotal(item: CartItem): (r: real)
    ensures item.price.Garbage? || item.price.Blank? || !item.qty.Parsed? ==> r == 0.0
    ensures item.qty.Parsed? && item.price.Parsed? ==> r == item.qty.value as real * item.price.value
  {
    if item.price.Garbage? || !item.qty.Parsed? then 0.0
    else
      var price := if item.price.Parsed? then item.price.value else 0.0;
      TimesIsProduct(item.qty.value, price);
      Times(item.qty.value, price)
  }

  function ViewLine(item: CartItem): CartItem
  {
    item.(subtotal := Some(ViewSubtotal(item)))
  }

  /** The ids whose product still exists, in cart order. */
  function Present(ids: seq<ProductId>, products: map<ProductId, Product>): (r: seq<ProductId>)
    ensures forall x :: x in r <==> x in ids && x in products
  {
    if ids == [] then []
    else
      var last := ids[|ids| - 1];
      Present(ids[..|ids| - 1], products) + (if last in products then [last] else [])
  }

  /** Filtering keeps ids distinct. */
  lemma {:induction false} PresentDistinct(ids: seq<ProductId>, products: map<ProductId, Product>)
    requires Distinct(ids)
    ensures Distinct(Present(ids, products))
  {
    if ids != [] {
      var init := ids[..|ids| - 1];
      assert ids == init + [ids[|ids| - 1]];
      PresentDistinct(init, products);
    }
  }

  /** When every product exists, nothing is dropped. */
  lemma {:induction false} PresentAll(ids: seq<ProductId>, products: map<ProductId, Product>)
    requires forall i | 0 <= i < |ids| :: ids[i] in products
    ensures Present(ids, products) == ids
  {
    if ids != [] {
      var init := ids[..|ids| - 1];
      assert ids == init + [ids[|ids| - 1]];
      PresentAll(init, products);
    }
  }

  /** Extending the cart by one id extends its present ids by that id
      exactly when its product exists. */
  lemma PresentSnoc(ids: seq<ProductId>, id: ProductId, products: map<ProductId, Product>)
    ensures Present(ids + [id], products) == Present(ids, products) + (if id in products then [id] else [])
  {
    assert (ids + [id])[..|ids|] == ids;
  }

  /** The cart `cart_view` writes back to the session. */
  function ViewCart(c: CartData, products: map<ProductId, Product>): (r: CartData)
    ensures forall id :: id in r.ids <==> id in c.ids && id in products
  {
    CartData(Present(c.ids, products), map id | id in c.lines && id in products :: ViewLine(c.lines[id]))
  }

  /** Sum of the view subtotals of `ids`, taken in order. */
  function LinesTotal(ids: seq<ProductId>, lines: map<ProductId, CartItem>): real
    requires AllIn(ids, lines)
  {
    if ids == [] then 0.0 else LinesTotal(ids[..|ids| - 1], lines) + ViewSubtotal(lines[ids[|ids| - 1]])
  }

  /** `cart_total_amount` of `cart_view`. */
  function ViewTotal(c: CartData, products: map<ProductId, Product>): real
    requires c.Keyed()
  {
    LinesTotal(Present(c.ids, products), c.lines)
  }

  /** A line's view subtotal ignores the subtotal already stored. */
  lemma ViewLineTwice(item: CartItem)
    ensures ViewLine(ViewLine(item)) == ViewLine(item)
  {
    var v := ViewLine(item);
    assert v.price == item.price && v.qty == item.qty;
    assert ViewSubtotal(v) == ViewSubtotal(item);
  }

  /** The refreshed cart is again a valid cart. */
  lemma ViewCartValid(c: CartData, products: map<ProductId, Product>)
    requires c.Valid()
    ensures ViewCart(c, products).Valid()
  {
    ViewCartKeepsPresent(c, products);
  }

  /** The view drops exactly the lines whose product is gone, keeps the
      rest in order, and keeps the cart well formed; a cart whose products
      all exist keeps every id. */
  lemma ViewCartKeepsPresent(c: CartData, products: map<ProductId, Product>)
    requires c.Valid()
    ensures var v := ViewCart(c, products);
      v.Valid()
      && (forall id :: id in v.lines <==> id in c.lines && id in products)
      && (forall id | id in v.lines :: v.lines[id] == ViewLine(c.lines[id]))
      && ((forall i | 0 <= i < |c.ids| :: c.ids[i] in products) ==> v.ids == c.ids)
  {
    PresentDistinct(c.ids, products);
    if forall i | 0 <= i < |c.ids| :: c.ids[i] in products {
      PresentAll(c.ids, products);
    }
  }

  /** Viewing a viewed cart changes nothing. */
  lemma ViewCartIdempotent(c: CartData, products: map<ProductId, Product>)
    requires c.Valid()
    ensures ViewCart(ViewCart(c, products), products) == ViewCart(c, products)
  {
    var v := ViewCart(c, products);
    assert forall i | 0 <= i < |v.ids| :: v.ids[i] in products;
    PresentAll(v.ids, products);
    var w := ViewCart(v, products);
    assert w.ids == v.ids;
    ViewLinesTwice(c.lines, products);
  }

  /** Viewing the viewed lines again changes none of them. */
  lemma ViewLinesTwice(lines: map<ProductId, CartItem>, products: map<ProductId, Product>)
    ensures var v := map id | id in lines && id in products :: ViewLine(lines[id]);
      (map id | id in v && id in products :: ViewLine(v[id])) == v
  {
    var v := map id | id in lines && id in products :: ViewLine(lines[id]);
    var w := map id | id in v && id in products :: ViewLine(v[id]);
    forall id | id in v ensures w[id] == v[id] {
      ViewLineTwice(lines[id]);
    }
    assert w.Keys == v.Keys;
  }

  /** After a view every line carries its subtotal, so `update_cart` can
      sum them, and their sum is the view's total. */
  lemma {:induction false} ViewedSubtotalsSum(ids: seq<ProductId>, lines: map<ProductId, CartItem>, viewed: map<ProductId, CartItem>)
    requires AllIn(ids, lines) && AllIn(ids, viewed)
    requires forall i | 0 <= i < |ids| :: viewed[ids[i]] == ViewLine(lines[ids[i]])
    ensures SubtotalSum(ids, viewed) == Some(LinesTotal(ids, lines))
  {
    if ids != [] {
      var init := ids[..|ids| - 1];
      assert forall i | 0 <= i < |init| :: init[i] == ids[i];
      ViewedSubtotalsSum(init, lines, viewed);
    }
  }

  /** When every line carries a subtotal, updating a line whose price
      parses succeeds, and the reported total moves by exactly that line's
      change. */
  lemma UpdateMovesTotal(c: CartData, products: map<ProductId, Product>, id: ProductId, param: Option<Field<int>>)
    requires c.Valid()
    requires id in c.lines && id in products && c.lines[id].price.Parsed? && RequestedQty(param).Some?
    requires SubtotalSum(c.ids, c.lines).Some?
    ensures c.lines[id].subtotal.Some?
    ensures var (r, _) := UpdateSpec(Some(c), products, id, param);
      r.Updated?
      && r.cartTotal == SubtotalSum(c.ids, c.lines).value + r.subtotal - c.lines[id].subtotal.value
  {
    SubtotalSumDefined(c.ids, c.lines);
    var k :| 0 <= k < |c.ids| && c.ids[k] == id;
    var line := c.lines[id];
    var stock := products[id].stockCount;
    var (q, advice) := Clamp(RequestedQty(param).value, stock);
    var sub := Times(q, line.price.value);
    var line' := line.(qty := Parsed(q), subtotal := Some(sub));
    SubtotalSumReplace(c.ids, c.lines, id, line');
  }

  /** Right after a view, `update_cart` on a line whose price parses
      succeeds, and its reported total is the view's total moved by the
      change of that one line. */
  lemma UpdateAfterView(c: CartData, products: map<ProductId, Product>, id: ProductId, param: Option<Field<int>>)
    requires c.Valid()
    requires id in c.lines && id in products && c.lines[id].price.Parsed? && RequestedQty(param).Some?
    ensures ViewCart(c, products).Valid()
    ensures var v := ViewCart(c, products);
      var (r, _) := UpdateSpec(Some(v), products, id, param);
      r.Updated?
      && r.cartTotal == ViewTotal(c, products) + r.subtotal - ViewSubtotal(c.lines[id])
  {
    var v := ViewCart(c, products);
    ViewCartKeepsPresent(c, products);
    ViewedSubtotalsSum(v.ids, c.lines, v.lines);
    assert v.lines[id].price == c.lines[id].price;
    UpdateMovesTotal(v, products, id, param);
  }

  /** The user's orders with status `pending`. */
  function PendingOrders(orders: map<OrderId, Order>, user: UserId): set<OrderId>
  {
    set o | o in orders && orders[o].user == user && orders[o].status == PENDING
  }

  /** `CartOrder.objects.get_or_create(user=…, order_status='pending',
      defaults={vendor, amount})` followed by setting the amount of an order
      it found; the column stores the amount rounded to cents. `None` when several orders match (the lookup raises) or
      when a new order would have no vendor (the insert fails). */
  method GetOrCreatePending(db: Store, user: UserId, vendor: Option<VendorId>, amount: real, newId: OrderId)
    returns (order: Option<OrderId>)
    requires db.Valid() && newId !in db.orders
    modifies db`orders
    ensures db.Valid()
    ensures var pending := PendingOrders(old(db.orders), user);
      if |pending| > 1 || (pending == {} && vendor.None?) then order.None? && db.orders == old(db.orders)
      else
        order.Some?
        && (pending == {} ==>
              order.value == newId
              && db.orders == old(db.orders)[newId := Order(user, vendor.value, ToCents(db.rounding, amount), None, false, PENDING)])
        && (pending != {} ==>
              pending == {order.value}
              && db.orders == old(db.orders)[order.value := old(db.orders)[order.value].(amount := ToCents(db.rounding, amount))])
  {
    var pending := PendingOrders(db.orders, user);
    if |pending| > 1 {
      return None;
    }
    if pending == {} {
      if vendor.None? {
        return None;
      }
      db.orders := db.orders[newId := Order(user, vendor.value, ToCents(db.rounding, amount), None, false, PENDING)];
      return Some(newId);
    }
    assert exists o :: o in pending by {
      if forall o :: o !in pending {
        assert false;
      }
    }
    var o :| o in pending;
    assert |pending - {o}| == 0;
    assert pending == {o};
    db.orders := db.orders[o := db.orders[o].(amount := ToCents(db.rounding, amount))];
    order := Some(o);
  }

  datatype ViewResult = NoCart | EmptyCart | Shown(total: real, count: nat, order: OrderId) | ViewFailed

  /** The lines the loop of `cart_view` collects, one per id in order. */
  function ViewedLines(ids: seq<ProductId>, lines: map<ProductId, CartItem>): map<ProductId, CartItem>
    requires AllIn(ids, lines)
  {
    if ids == [] then map[]
    else
      var last := ids[|ids| - 1];
      ViewedLines(ids[..|ids| - 1], lines)[last := ViewLine(lines[last])]
  }

  lemma ViewedLinesSnoc(ids: seq<ProductId>, id: ProductId, lines: map<ProductId, CartItem>)
    requires AllIn(ids, lines) && id in lines
    ensures AllIn(ids + [id], lines)
    ensures ViewedLines(ids + [id], lines) == ViewedLines(ids, lines)[id := ViewLine(lines[id])]
    ensures LinesTotal(ids + [id], lines) == LinesTotal(ids, lines) + ViewSubtotal(lines[id])
  {
    assert (ids + [id])[..|ids|] == ids;
  }

  /** The collected lines hold exactly the ids, each one viewed. */
  lemma {:induction false} ViewedLinesHold(ids: seq<ProductId>, lines: map<ProductId, CartItem>)
    requires AllIn(ids, lines)
    ensures forall id :: id in ViewedLines(ids, lines) <==> id in ids
    ensures forall id | id in ViewedLines(ids, lines) :: ViewedLines(ids, lines)[id] == ViewLine(lines[id])
  {
    if ids != [] {
      var init := ids[..|ids| - 1];
      assert ids == init + [ids[|ids| - 1]];
      ViewedLinesHold(init, lines);
    }
  }

  /** The lines the loop of `cart_view` collects make up the viewed cart. */
  lemma ViewCartFromLines(c: CartData, products: map<ProductId, Product>)
    requires c.Keyed()
    ensures AllIn(Present(c.ids, products), c.lines)
    ensures CartData(Present(c.ids, products), ViewedLines(Present(c.ids, products), c.lines)) == ViewCart(c, products)
  {
    var kept := Present(c.ids, products);
    ViewedLinesHold(kept, c.lines);
    assert ViewedLines(kept, c.lines) == ViewCart(c, products).lines;
  }

  /** The `try` block of `cart_view` for one line: `float(price or 0)`
      times `int(qty)`, and 0 when either conversion raises. */
  method LineSubtotal(item: CartItem) returns (sub: real)
    ensures sub == ViewSubtotal(item)
  {
    match item.price {
      case Garbage => sub := 0.0;
      case Blank => sub := if item.qty.Parsed? then Times(item.qty.value, 0.0) else 0.0;
      case Parsed(p) => sub := if item.qty.Parsed? then Times(item.qty.value, p) else 0.0;
    }
  }

  /** One turn of the loop of `cart_view`: line `i` is kept, viewed and
      added to the total exactly when its product exists. */
  method RefreshLine(c: CartData, products: map<ProductId, Product>, i: nat,
                     kept: seq<ProductId>, lines: map<ProductId, CartItem>, total: real)
    returns (kept': seq<ProductId>, lines': map<ProductId, CartItem>, total': real)
    requires c.Keyed() && i < |c.ids|
    requires kept == Present(c.ids[..i], products) && AllIn(kept, c.lines)
    requires lines == ViewedLines(kept, c.lines) && total == LinesTotal(kept, c.lines)
    ensures kept' == Present(c.ids[..i + 1], products) && AllIn(kept', c.lines)
    ensures lines' == ViewedLines(kept', c.lines) && total' == LinesTotal(kept', c.lines)
  {
    var id := c.ids[i];
    KeptStep(c, products, i, kept);
    kept', lines', total' := kept, lines, total;
    if id in products {
      var item := c.lines[id];
      var sub := LineSubtotal(item);
      ViewedLinesSnoc(kept, id, c.lines);
      kept', lines', total' := kept + [id], lines[id := item.(subtotal := Some(sub))], total + sub;
    }
  }

  /** Line `i` of a keyed cart has an entry, and the kept ids grow by it
      exactly when its product exists. */
  lemma KeptStep(c: CartData, products: map<ProductId, Product>, i: nat, kept: seq<ProductId>)
    requires c.Keyed() && i < |c.ids|
    requires kept == Present(c.ids[..i], products)
    ensures c.ids[i] in c.lines
    ensures Present(c.ids[..i + 1], products) == kept + (if c.ids[i] in products then [c.ids[i]] else [])
  {
    var id := c.ids[i];
    assert id in c.ids;
    assert c.ids[..i + 1] == c.ids[..i] + [id];
    PresentSnoc(c.ids[..i], id, products);
  }

  /** The loop of `cart_view`: keep the lines whose product exists, store
      each one's subtotal, and add the subtotals up. */
  method RefreshCart(c: CartData, products: map<ProductId, Product>) returns (v: CartData, total: real)
    requires c.Keyed()
    ensures v == ViewCart(c, products) && total == ViewTotal(c, products)
  {
    var kept: seq<ProductId> := [];
    var lines: map<ProductId, CartItem> := map[];
    total := 0.0;
    var i := 0;
    while i < |c.ids|
      invariant 0 <= i <= |c.ids|
      invariant kept == Present(c.ids[..i], products)
      invariant AllIn(kept, c.lines)
      invariant lines == ViewedLines(kept, c.lines) && total == LinesTotal(kept, c.lines)
    {
      kept, lines, total := RefreshLine(c, products, i, kept, lines, total);
      i := i + 1;
    }
    assert c.ids[..|c.ids|] == c.ids;
    v := CartData(kept, lines);
    ViewCartFromLines(c, products);
  }

  /** The end of `cart_view` for a cart with lines left: get or create the
      user's pending order, set its amount to the cart total and save the
      refreshed cart. The order's vendor is that of the first line. */
  method ShowCart(s: Session, db: Store, user: UserId, newId: OrderId, v: CartData, total: real)
    returns (r: ViewResult)
    requires s.Valid() && db.Valid() && newId !in db.orders
    requires v.Valid() && v.ids != [] && v.ids[0] in db.products
    modifies s, db`orders
    ensures s.Valid() && db.Valid()
    ensures var vendor := db.products[v.ids[0]].vendor;
      var pending := PendingOrders(old(db.orders), user);
      if |pending| > 1 || (pending == {} && vendor.None?) then
        r == ViewFailed && s.cart == old(s.cart) && db.orders == old(db.orders)
      else
        s.cart == Some(v) && r.Shown? && r.total == total && r.count == |v.ids|
        && (pending == {} ==>
              r.order == newId && db.orders == old(db.orders)[newId := Order(user, vendor.value, ToCents(db.rounding, total), None, false, PENDING)])
        && (pending != {} ==>
              pending == {r.order} && db.orders == old(db.orders)[r.order := old(db.orders)[r.order].(amount := ToCents(db.rounding, total))])
  {
    var order := GetOrCreatePending(db, user, db.products[v.ids[0]].vendor, total, newId);
    if order.None? {
      return ViewFailed;
    }
    r := Shown(total, |v.ids|, order.value);
    s.cart := Some(v);
  }

  /** `cart_view`: refresh the cart, then get or create the user's pending
      order and set its amount to the cart total. `newId` is the id the
      database gives a new order. */
  method CartView(s: Session, db: Store, user: UserId, newId: OrderId) returns (r: ViewResult)
    requires s.Valid() && db.Valid() && newId !in db.orders
    modifies s, db`orders
    ensures s.Valid() && db.Valid()
    ensures old(s.cart).None? ==> r == NoCart && s.cart == old(s.cart) && db.orders == old(db.orders)
    ensures old(s.cart).Some? ==>
      var v := ViewCart(old(s.cart).value, db.products);
      var total := ViewTotal(old(s.cart).value, db.products);
      var pending := PendingOrders(old(db.orders), user);
      if v.ids == [] then r == EmptyCart && s.cart == Some(v) && db.orders == old(db.orders)
      else
        var vendor := db.products[v.ids[0]].vendor;
        if |pending| > 1 || (pending == {} && vendor.None?) then
          r == ViewFailed && s.cart == old(s.cart) && db.orders == old(db.orders)
        else
          s.cart == Some(v) && r.Shown? && r.total == total && r.count == |v.ids|
          && (pending == {} ==>
                r.order == newId && db.orders == old(db.orders)[newId := Order(user, vendor.value, ToCents(db.rounding, total), None, false, PENDING)])
          && (pending != {} ==>
                pending == {r.order} && db.orders == old(db.orders)[r.order := old(db.orders)[r.order].(amount := ToCents(db.rounding, total))])
  {
    if s.cart.None? {
      return NoCart;
    }
    var c := s.cart.value;
    var v, total := RefreshCart(c, db.products);
    ViewCartValid(c, db.products);
    if v.ids == [] {
      s.cart := Some(v);
      return EmptyCart;
    }
    assert v.ids[0] in v.ids;
    r := ShowCart(s, db, user, newId, v, total);
  }
}
