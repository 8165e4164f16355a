/** Coupon application (core/views.py `apply_coupon_to_order` and the
    pricing lines of `checkout`): the case-insensitive lookup of an active
    coupon, the rejection checks in their fixed order, and the discount
    capped at the coupon's maximum. */
module Pricing {
  import opened Common
  import opened Text
  import opened Models

  /** Why a coupon was not applied, in the order the checks run. */
  datatype CouponRejection = InvalidCode | Expired | BelowMinimum | AlreadyApplied

  /** `code__iexact=code, active=True` for one coupon. */
  predicate CodeMatches(c: Coupon, code: string)
  {
    c.active && Upper(c.code) == Upper(code)
  }

  /** The coupons the lookup matches. */
  function Matching(coupons: map<CouponId, Coupon>, code: string): set<CouponId>
  {
    set id | id in coupons && CodeMatches(coupons[id], code)
  }

  /** The outcome of `Coupon.objects.get(...)`: one coupon, none
      (`DoesNotExist`) or several (`MultipleObjectsReturned`). */
  datatype Lookup = Found(id: CouponId) | NotFound | Ambiguous

  /** A set of one element has a member. */
  lemma OneMember(m: set<CouponId>)
    requires |m| == 1
    ensures exists id :: id in m
  {
    if forall id :: id !in m {
      assert false;
    }
  }

  /** What the lookup returns. */
  ghost function LookupSpec(coupons: map<CouponId, Coupon>, code: string): (r: Lookup)
    ensures r == NotFound <==> Matching(coupons, code) == {}
    ensures r == Ambiguous <==> |Matching(coupons, code)| > 1
    ensures r.Found? ==> Matching(coupons, code) == {r.id} && r.id in coupons
  {
    var m := Matching(coupons, code);
    if m == {} then NotFound
    else if |m| > 1 then Ambiguous
    else
      OneMember(m);
      var id :| id in m;
      assert |m - {id}| == 0;
      Found(id)
  }

  /** `Coupon.objects.get(code__iexact=code, active=True)`. */
  method LookupCoupon(coupons: map<CouponId, Coupon>, code: string) returns (r: Lookup)
    ensures r == LookupSpec(coupons, code)
  {
    var m := set id | id in coupons && CodeMatches(coupons[id], code);
    if m == {} {
      return NotFound;
    }
    if |m| > 1 {
      return Ambiguous;
    }
    OneMember(m);
    var id :| id in m;
    assert |m - {id}| == 0;
    assert m == {id};
    r := Found(id);
  }

  /** The checks `apply_coupon_to_order` makes once the coupon is found,
      first failing check first: expired, below the order minimum, and
      already on this order while usable once per user. */
  function Rejection(c: Coupon, cid: CouponId, attached: Option<CouponId>, subtotal: real, now: int): (r: Option<CouponRejection>)
    ensures r != Some(InvalidCode)
    ensures r == None <==> c.expiry >= now && subtotal >= c.minOrder && !(attached == Some(cid) && c.oncePerUser)
    ensures r == Some(Expired) <==> c.expiry < now
    ensures r == Some(BelowMinimum) <==> c.expiry >= now && subtotal < c.minOrder
    ensures r == Some(AlreadyApplied) ==> attached == Some(cid) && c.oncePerUser
  {
    if c.expiry < now then Some(Expired)
    else if subtotal < c.minOrder then Some(BelowMinimum)
    else if attached == Some(cid) && c.oncePerUser then Some(AlreadyApplied)
    else None
  }

  /** The outcome of a coupon request. `LookupFailed` is the unhandled
      `MultipleObjectsReturned` of an ambiguous code. */
  datatype Attempt = NotRequested | Applied(coupon: CouponId) | Refused(why: CouponRejection) | LookupFailed

  /** `apply_coupon_to_order` once the lookup has answered. */
  function Decide(coupons: map<CouponId, Coupon>, found: Lookup, attached: Option<CouponId>, subtotal: real, now: int): (r: Attempt)
    requires found.Found? ==> found.id in coupons
    ensures r != NotRequested
    ensures r == Refused(InvalidCode) <==> found.NotFound?
    ensures r == LookupFailed <==> found.Ambiguous?
    ensures r.Applied? ==> found == Found(r.coupon)
  {
    match found
    case NotFound => Refused(InvalidCode)
    case Ambiguous => LookupFailed
    case Found(id) =>
      var why := Rejection(coupons[id], id, attached, subtotal, now);
      if why.None? then Applied(id) else Refused(why.value)
  }

  /** `apply_coupon_to_order` on an order carrying `attached`, for the
      code as typed once stripped (`key`). */
  ghost function ApplySpec(coupons: map<CouponId, Coupon>, attached: Option<CouponId>, key: string, subtotal: real, now: int): (r: Attempt)
    ensures r != NotRequested
    ensures r.Applied? ==> r.coupon in coupons
  {
    Decide(coupons, LookupSpec(coupons, key), attached, subtotal, now)
  }

  /** The first check that fails decides: an unknown code is refused
      before any other check; an applied coupon is the one the stripped
      code names, active, unexpired, within its minimum and not a repeat;
      no code is refused for a reason that an earlier check would catch. */
  lemma ApplyChecksInOrder(coupons: map<CouponId, Coupon>, attached: Option<CouponId>, key: string, subtotal: real, now: int)
    ensures var r := ApplySpec(coupons, attached, key, subtotal, now);
      (r == Refused(InvalidCode) <==> Matching(coupons, key) == {})
      && (r == LookupFailed <==> |Matching(coupons, key)| > 1)
      && (r.Applied? ==>
            Matching(coupons, key) == {r.coupon}
            && var c := coupons[r.coupon];
            c.active && Upper(c.code) == Upper(key)
            && c.expiry >= now && subtotal >= c.minOrder && !(attached == Some(r.coupon) && c.oncePerUser))
      && (r.Refused? && r.why != InvalidCode ==>
            var l := LookupSpec(coupons, key);
            l.Found? && Rejection(coupons[l.id], l.id, attached, subtotal, now) == Some(r.why))
  {
    var l := LookupSpec(coupons, key);
    if l.Found? {
      assert l.id in Matching(coupons, key);
    }
  }

  /** A refused or failed request leaves the order's coupon as it was; only
      a success attaches one. */
  lemma ApplyOnlySuccessAttaches(coupons: map<CouponId, Coupon>, attached: Option<CouponId>, key: string, subtotal: real, now: int)
    ensures var r := ApplySpec(coupons, attached, key, subtotal, now);
      r != NotRequested
      && (r.Applied? ==> r.coupon in coupons)
      && (attached.None? ==> r != Refused(AlreadyApplied))
  {
  }

  /** `apply_coupon_to_order` on order `oid`: attach the coupon on success,
      otherwise leave the order alone. */
  method ApplyCouponToOrder(db: Store, oid: OrderId, code: string, subtotal: real, now: int) returns (r: Attempt)
    requires db.Valid() && oid in db.orders
    modifies db`orders
    ensures db.Valid()
    ensures r == ApplySpec(db.coupons, old(db.orders)[oid].coupon, Strip(code), subtotal, now)
    ensures db.orders == if r.Applied? then old(db.orders)[oid := old(db.orders)[oid].(coupon := Some(r.coupon))] else old(db.orders)
  {
    r := ApplyKey(db, oid, Strip(code), subtotal, now);
  }

  /** The body of `apply_coupon_to_order` after `code.strip()`. */
  method ApplyKey(db: Store, oid: OrderId, key: string, subtotal: real, now: int) returns (r: Attempt)
    requires db.Valid() && oid in db.orders
    modifies db`orders
    ensures db.Valid()
    ensures r == ApplySpec(db.coupons, old(db.orders)[oid].coupon, key, subtotal, now)
    ensures db.orders == if r.Applied? then old(db.orders)[oid := old(db.orders)[oid].(coupon := Some(r.coupon))] else old(db.orders)
  {
    var found := LookupCoupon(db.coupons, key);
    var order := db.orders[oid];
    r := Decide(db.coupons, found, order.coupon, subtotal, now);
    if r.Applied? {
      db.orders := db.orders[oid := order.(coupon := Some(r.coupon))];
    }
  }

  /** The discount of `checkout`: `subtotal × pct / 100`, lowered to
      `max_discount_amount` when it exceeds it. */
  function Discount(subtotal: real, c: Coupon): (d: real)
    ensures d <= c.maxDiscount && d <= subtotal * c.discount / 100.0
    ensures d == c.maxDiscount || d == subtotal * c.discount / 100.0
  {
    var raw := subtotal * c.discount / 100.0;
    if raw > c.maxDiscount then c.maxDiscount else raw
  }

  /** `subtotal - discount + tax + shipping` with tax and shipping 0. */
  function Total(subtotal: real, c: Option<Coupon>): (t: real)
    ensures c.None? ==> t == subtotal
    ensures c.Some? ==>
      var pct := subtotal * c.value.discount / 100.0;
      t >= subtotal - c.value.maxDiscount && t >= subtotal - pct
      && (t == subtotal - c.value.maxDiscount || t == subtotal - pct)
  {
    if c.None? then subtotal else subtotal - Discount(subtotal, c.value)
  }

  /** For a percentage in [0, 100], a non-negative cap and a non-negative
      subtotal, the discount lies in [0, subtotal] and so the total lies
      in [0, subtotal]. */
  lemma DiscountBounds(subtotal: real, c: Coupon)
    requires 0.0 <= c.discount <= 100.0 && c.maxDiscount >= 0.0 && subtotal >= 0.0
    ensures 0.0 <= Discount(subtotal, c) <= subtotal
    ensures 0.0 <= Total(subtotal, Some(c)) <= subtotal
  {
    var raw := subtotal * c.discount / 100.0;
    assert 0.0 <= subtotal * c.discount <= subtotal * 100.0 by {
      assert subtotal * (100.0 - c.discount) >= 0.0;
    }
    assert 0.0 <= raw <= subtotal;
  }
}
