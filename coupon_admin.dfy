/** The vendor's coupon pages (useradmin/views.py): the listing and its
    filters, `add_coupon`, `edit_coupon`, `delete_coupon` and
    `toggle_coupon_status`. */
module CouponAdmin {
  import opened Common
  import opened Text
  import opened Models
  import opened Forms
  import opened CouponTags

  // ------------------------------------------------------------ the listing

  /** Some order refers to the coupon. */
  predicate Used(orders: map<OrderId, Order>, id: CouponId)
  {
    exists o | o in orders :: orders[o].coupon == Some(id)
  }

  /** Whether the listing (before any status filter) shows a coupon: the
      vendor's own, and unless deleted coupons are asked for, not one that
      is inactive and used in an order. */
  predicate Visible(c: Coupon, used: bool, vendor: VendorId, showDeleted: bool)
    ensures Visible(c, used, vendor, showDeleted) ==> c.vendor == vendor
    ensures c.vendor == vendor && (c.active || !used) ==> Visible(c, used, vendor, showDeleted)
  {
    c.vendor == vendor && (showDeleted || !(!c.active && used))
  }

  /** The `status` filter of the listing; an unknown filter, and `deleted`
      without deleted coupons shown, filter nothing. */
  predicate PassesFilter(c: Coupon, used: bool, showDeleted: bool, statusFilter: string, now: int)
    ensures (statusFilter != "active" && statusFilter != "inactive" && statusFilter != "expired"
             && (statusFilter != "deleted" || !showDeleted))
            ==> PassesFilter(c, used, showDeleted, statusFilter, now)
  {
    if statusFilter == "active" then c.active && c.expiry > now
    else if statusFilter == "inactive" then !c.active
    else if statusFilter == "expired" then c.expiry <= now
    else if statusFilter == "deleted" && showDeleted then !c.active && used
    else true
  }

  /** The coupons `coupons` lists (the search box left empty). */
  function Listed(coupons: map<CouponId, Coupon>, orders: map<OrderId, Order>, vendor: VendorId,
                  showDeleted: bool, statusFilter: string, now: int): (r: set<CouponId>)
    ensures forall id | id in r :: id in coupons && coupons[id].vendor == vendor
  {
    set id | id in coupons && Visible(coupons[id], Used(orders, id), vendor, showDeleted)
                           && PassesFilter(coupons[id], Used(orders, id), showDeleted, statusFilter, now)
  }

  /** By default the listing shows every coupon of the vendor except the
      inactive ones some order used; with deleted coupons shown, the
      `deleted` filter lists exactly those. */
  lemma ListingHidesRetired(coupons: map<CouponId, Coupon>, orders: map<OrderId, Order>, vendor: VendorId,
                            id: CouponId, now: int)
    requires id in coupons && coupons[id].vendor == vendor
    ensures id in Listed(coupons, orders, vendor, false, "", now) <==> coupons[id].active || !Used(orders, id)
    ensures id in Listed(coupons, orders, vendor, true, "", now)
    ensures id in Listed(coupons, orders, vendor, true, "deleted", now) <==> !coupons[id].active && Used(orders, id)
    ensures Listed(coupons, orders, vendor, false, "deleted", now) == Listed(coupons, orders, vendor, false, "", now)
  {
  }

  /** The `active` and `inactive` filters list exactly the visible coupons
      whose badge says so; the `expired` filter lists the visible coupons
      past their expiry, which the badge calls expired when they are
      active and inactive otherwise. */
  lemma FiltersMatchBadge(coupons: map<CouponId, Coupon>, orders: map<OrderId, Order>, vendor: VendorId,
                          showDeleted: bool, id: CouponId, now: int)
    requires id in coupons && Visible(coupons[id], Used(orders, id), vendor, showDeleted)
    ensures var c := coupons[id];
      var badge := StatusBadge(c.active, Moment(c.expiry), now);
      (id in Listed(coupons, orders, vendor, showDeleted, "active", now) <==> badge == Some(BadgeActive))
      && (id in Listed(coupons, orders, vendor, showDeleted, "inactive", now) <==> badge == Some(BadgeInactive))
      && (id in Listed(coupons, orders, vendor, showDeleted, "expired", now) <==> IsExpired(Moment(c.expiry), now))
      && (id in Listed(coupons, orders, vendor, showDeleted, "expired", now) ==>
            badge == (if c.active then Some(BadgeExpired) else Some(BadgeInactive)))
  {
  }

  // ------------------------------------------------------------ add and edit

  /** No two coupons share a code (the column is unique). */
  ghost predicate UniqueCodes(coupons: map<CouponId, Coupon>)
  {
    forall i, j | i in coupons && j in coupons && i != j :: coupons[i].code != coupons[j].code
  }

  /** Storing a coupon whose code no other coupon has keeps codes unique. */
  lemma SaveKeepsUnique(coupons: map<CouponId, Coupon>, cid: CouponId, c: Coupon)
    requires UniqueCodes(coupons)
    requires forall id | id in coupons && id != cid :: coupons[id].code != c.code
    ensures UniqueCodes(coupons[cid := c])
  {
  }

  /** The coupon an accepted form yields has a code that is already in
      canonical form, belongs to the vendor, and clashes with no other
      coupon's code. */
  lemma AcceptedCodeFree(input: CouponInput, limits: FieldLimits, vendor: VendorId, coupons: map<CouponId, Coupon>,
                         editing: Option<CouponId>, now: int)
    requires CleanCouponForm(input, limits, vendor, coupons, editing, now).Pass?
    ensures var c := CleanCouponForm(input, limits, vendor, coupons, editing, now).value;
      CanonicalCode(c.code) == c.code && c.vendor == vendor && IsUpper(c.code) && IsStripped(c.code)
      && (forall id | id in coupons && Some(id) != editing :: coupons[id].code != c.code)
  {
    CouponFormAccepts(input, limits, vendor, coupons, editing, now);
    CanonicalCodeIdempotent(Strip(input.code));
  }

  /** What a coupon page did. */
  datatype CouponOutcome =
    | Saved                      // created or updated
    | Refused(error: FormError)  // the form was refused, nothing stored
    | CouponMissing              // 404: no such coupon of this vendor
    | NotAjax                    // 400: "AJAX request required"
    | InUse                      // 400: used in orders, kept
    | Removed                    // deleted
    | Info(used: bool)           // GET: the coupon's details
    | Toggled(active: bool)      // the new `active`

  /** `add_coupon`; `cid` is the new row's key. The code stored is the
      cleaned code upper-cased and stripped once more, which changes
      nothing. */
  method AddCoupon(db: Store, limits: FieldLimits, vendor: VendorId, cid: CouponId, input: CouponInput, now: int) returns (r: CouponOutcome)
    requires cid !in db.coupons
    requires db.Valid() && UniqueCodes(db.coupons)
    modifies db`coupons
    ensures db.Valid() && UniqueCodes(db.coupons)
    ensures var f := CleanCouponForm(input, limits, vendor, old(db.coupons), None, now);
      if f.Fail? then r == Refused(f.error) && db.coupons == old(db.coupons)
      else (r == Saved && db.coupons == old(db.coupons)[cid := f.value]
            && IsUpper(db.coupons[cid].code) && IsStripped(db.coupons[cid].code))
  {
    var f := CleanCouponForm(input, limits, vendor, db.coupons, None, now);
    if f.Fail? {
      return Refused(f.error);
    }
    AcceptedCodeFree(input, limits, vendor, db.coupons, None, now);
    var coupon := f.value.(vendor := vendor);
    coupon := coupon.(code := CanonicalCode(coupon.code));
    assert coupon == f.value;
    SaveKeepsUnique(db.coupons, cid, coupon);
    db.coupons := db.coupons[cid := coupon];
    r := Saved;
  }

  /** `edit_coupon`; the vendor is kept and the coupon's own code does not
      count as a duplicate. */
  method EditCoupon(db: Store, limits: FieldLimits, vendor: VendorId, cid: CouponId, input: CouponInput, now: int) returns (r: CouponOutcome)
    requires db.Valid() && UniqueCodes(db.coupons)
    modifies db`coupons
    ensures db.Valid() && UniqueCodes(db.coupons)
    ensures if cid !in old(db.coupons) || old(db.coupons)[cid].vendor != vendor then
        r == CouponMissing && db.coupons == old(db.coupons)
      else
        var f := CleanCouponForm(input, limits, vendor, old(db.coupons), Some(cid), now);
        if f.Fail? then r == Refused(f.error) && db.coupons == old(db.coupons)
        else r == Saved && db.coupons == old(db.coupons)[cid := f.value]
  {
    if cid !in db.coupons || db.coupons[cid].vendor != vendor {
      return CouponMissing;
    }
    var f := CleanCouponForm(input, limits, vendor, db.coupons, Some(cid), now);
    if f.Fail? {
      return Refused(f.error);
    }
    AcceptedCodeFree(input, limits, vendor, db.coupons, Some(cid), now);
    var coupon := f.value.(code := CanonicalCode(f.value.code));
    assert coupon == f.value;
    SaveKeepsUnique(db.coupons, cid, coupon);
    db.coupons := db.coupons[cid := coupon];
    r := Saved;
  }

  // ------------------------------------------------------------ delete and toggle

  /** `delete_coupon`: only over AJAX, only the vendor's coupon, and only
      when no order uses it; a GET only describes it. */
  method DeleteCoupon(db: Store, vendor: VendorId, cid: CouponId, isAjax: bool, isPost: bool) returns (r: CouponOutcome)
    requires db.Valid()
    modifies db`coupons
    ensures db.Valid()
    ensures r == (if !isAjax then NotAjax
                  else if cid !in old(db.coupons) || old(db.coupons)[cid].vendor != vendor then CouponMissing
                  else if !isPost then Info(Used(db.orders, cid))
                  else if Used(db.orders, cid) then InUse
                  else Removed)
    ensures db.coupons == if r == Removed then old(db.coupons) - {cid} else old(db.coupons)
  {
    if !isAjax {
      return NotAjax;
    }
    if cid !in db.coupons || db.coupons[cid].vendor != vendor {
      return CouponMissing;
    }
    var used := exists o | o in db.orders :: db.orders[o].coupon == Some(cid);
    if !isPost {
      return Info(used);
    }
    if used {
      return InUse;
    }
    db.coupons := db.coupons - {cid};
    r := Removed;
  }

  /** A coupon some order refers to is never removed, and a removal never
      leaves an order pointing at a missing coupon. */
  lemma RemovalKeepsOrdersResolved(coupons: map<CouponId, Coupon>, orders: map<OrderId, Order>, cid: CouponId)
    requires forall o | o in orders && orders[o].coupon.Some? :: orders[o].coupon.value in coupons
    requires !Used(orders, cid)
    ensures forall o | o in orders && orders[o].coupon.Some? :: orders[o].coupon.value in coupons - {cid}
  {
    forall o | o in orders && orders[o].coupon.Some?
      ensures orders[o].coupon.value in coupons - {cid}
    {
      assert orders[o].coupon != Some(cid);
    }
  }

  /** `toggle_coupon_status`'s change. */
  function Toggle(c: Coupon): (t: Coupon)
    ensures t.active == !c.active && t.(active := c.active) == c
  {
    c.(active := !c.active)
  }

  /** `toggle_coupon_status`. */
  method ToggleCoupon(db: Store, vendor: VendorId, cid: CouponId) returns (r: CouponOutcome)
    requires db.Valid()
    modifies db`coupons
    ensures db.Valid()
    ensures if cid !in old(db.coupons) || old(db.coupons)[cid].vendor != vendor then
        r == CouponMissing && db.coupons == old(db.coupons)
      else r == Toggled(!old(db.coupons)[cid].active) && db.coupons == old(db.coupons)[cid := Toggle(old(db.coupons)[cid])]
  {
    if cid !in db.coupons || db.coupons[cid].vendor != vendor {
      return CouponMissing;
    }
    var coupon := db.coupons[cid];
    db.coupons := db.coupons[cid := Toggle(coupon)];
    r := Toggled(!coupon.active);
  }

  /** Two toggles restore the coupon; a toggle changes its badge between
      inactive and active or expired and back. */
  lemma ToggleTwice(c: Coupon, now: int)
    ensures Toggle(Toggle(c)) == c
    ensures StatusBadge(Toggle(c).active, Moment(c.expiry), now) == Some(BadgeInactive) <==> c.active
  {
  }
}
