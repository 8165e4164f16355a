/** The vendor's product and coupon forms (useradmin/forms.py). A form
    field first applies its declared checks (required, a minimum value, a
    choice among existing rows, stripping of text); only a value that
    passes them reaches the form's `clean_<field>` method; `clean` then
    checks fields against each other, and last the model's own field
    validators run on the cleaned values (`full_clean`). */
module Forms {
  import opened Common
  import opened Text
  import opened Models
  import opened Pricing

  /** useradmin/constants.py. */
  const MinCouponCodeLength := 3
  const MinDiscountPercentage := 0.0
  const MaxDiscountPercentage := 100.0
  /** The `min_value` of the product price field. */
  const MinProductPrice := 0.01
  /** `DECIMAL_PLACES` and `MAX_DIGITS_DECIMAL`: every money column keeps
      two decimal places, and the old-price field allows ten digits. */
  const DecimalPlaces := 2
  const MaxDigitsDecimal := 10

  /** The limits the models declare in core/constants.py, which is not part
      of this model: the length of a product title and of a coupon code,
      and the `max_digits` of every money column. */
  datatype FieldLimits = FieldLimits(titleLength: nat, codeLength: nat, amountDigits: nat)

  /** `10 ** n`. */
  function Pow10(n: nat): (r: real)
    ensures r >= 1.0
  {
    if n == 0 then 1.0 else 10.0 * Pow10(n - 1)
  }

  /** Django's `DecimalValidator(maxDigits, 2)` on an exact amount: at most
      two decimal places, and at most `maxDigits - 2` digits before the
      point. */
  predicate FitsDecimal(x: real, maxDigits: nat)
  {
    maxDigits >= DecimalPlaces && (x * 100.0).Floor as real == x * 100.0
    && -Pow10(maxDigits - DecimalPlaces) < x < Pow10(maxDigits - DecimalPlaces)
  }

  /** A column with more digits takes every amount a narrower one takes;
      a third decimal place is refused whatever the width, and whole cents
      below `10 ** (maxDigits - 2)` are accepted. */
  lemma {:induction false} FitsDecimalWider(x: real, narrow: nat, wide: nat)
    requires narrow <= wide && FitsDecimal(x, narrow)
    ensures FitsDecimal(x, wide)
  {
    if narrow < wide {
      FitsDecimalWider(x, narrow, wide - 1);
      assert Pow10(wide - DecimalPlaces) == 10.0 * Pow10(wide - 1 - DecimalPlaces);
    }
  }

  /** The amounts that fit are exactly the whole cents within the width. */
  lemma FitsDecimalCents(k: int, maxDigits: nat)
    requires maxDigits >= DecimalPlaces
    ensures FitsDecimal(k as real / 100.0, maxDigits) <==>
      -Pow10(maxDigits - DecimalPlaces) * 100.0 < k as real < Pow10(maxDigits - DecimalPlaces) * 100.0
    ensures !FitsDecimal(1.234, maxDigits) && FitsDecimal(0.0, maxDigits)
  {
    assert (k as real / 100.0) * 100.0 == k as real;
    assert 1.234 * 100.0 == 123.4;
    assert (123.4).Floor == 123;
  }

  /** Why a form is refused. */
  datatype FormError =
    | Required          // a required field is empty
    | BelowFieldMinimum // below the field's declared `min_value`
    | NotPositive       // "Price must be greater than 0"
    | NegativeStock
    | NegativeOldPrice
    | NegativeLife
    | FutureMfd
    | EmptyCode
    | CodeTooShort
    | DuplicateCode
    | PastExpiry
    | MissingDiscount
    | NegativeDiscount
    | DiscountTooHigh
    | CapAboveMinimum   // "Maximum discount amount cannot be greater than the minimum order amount."
    | NotAChoice        // "Select a valid choice": no such category
    | TooLong           // longer than the column's `max_length`
    | TooManyDigits     // more decimal places or digits than the column keeps

  /** A cleaned value, or the error that refused it. */
  datatype Checked<T> = Pass(value: T) | Fail(error: FormError)

  // ------------------------------------------------------------ product form

  /** `clean_amount`: a missing or non-positive price is refused. */
  function CleanAmount(amount: Option<real>): (r: Checked<real>)
    ensures r.Pass? <==> amount.Some? && amount.value > 0.0
    ensures r.Pass? ==> r.value == amount.value
  {
    if amount.None? || amount.value <= 0.0 then Fail(NotPositive) else Pass(amount.value)
  }

  /** `clean_stock_count`: a missing or negative count is refused. */
  function CleanStockCount(stock: Option<int>): (r: Checked<nat>)
    ensures r.Pass? <==> stock.Some? && stock.value >= 0
    ensures r.Pass? ==> r.value == stock.value
  {
    if stock.None? || stock.value < 0 then Fail(NegativeStock) else Pass(stock.value)
  }

  /** `clean_old_price`: a negative old price is refused; an absent or zero
      one becomes 0. */
  function CleanOldPrice(oldPrice: Option<real>): (r: Checked<real>)
    ensures r.Pass? <==> oldPrice.None? || oldPrice.value >= 0.0
    ensures r.Pass? ==> r.value >= 0.0 && r.value == (if oldPrice.None? then 0.0 else oldPrice.value)
  {
    if oldPrice.Some? && oldPrice.value != 0.0 && oldPrice.value < 0.0 then Fail(NegativeOldPrice)
    else if oldPrice.None? || oldPrice.value == 0.0 then Pass(0.0)
    else Pass(oldPrice.value)
  }

  /** `clean_life`: an empty life becomes 0 and a negative one is refused. */
  function CleanLife(life: Option<int>): (r: Checked<nat>)
    ensures r.Pass? <==> life.None? || life.value >= 0
    ensures r.Pass? ==> r.value == (if life.None? then 0 else life.value)
  {
    if life.None? then Pass(0)
    else if life.value < 0 then Fail(NegativeLife)
    else Pass(life.value)
  }

  /** `clean_mfd`: a manufacture date after `now` is refused. */
  function CleanMfd(mfd: Option<int>, now: int): (r: Checked<Option<int>>)
    ensures r.Pass? <==> mfd.None? || mfd.value <= now
    ensures r.Pass? ==> r.value == mfd
  {
    if mfd.Some? && mfd.value > now then Fail(FutureMfd) else Pass(mfd)
  }

  /** The product form as posted: the title and the tags as typed, the
      numbers as the fields read them (`None` for an empty field). */
  datatype ProductInput = ProductInput(
    title: string,
    amount: Option<real>,
    oldPrice: Option<real>,
    stock: Option<int>,
    life: Option<int>,
    mfd: Option<int>,
    tags: string,
    category: Option<CategoryId>)

  /** The cleaned product form. */
  datatype ProductForm = ProductForm(
    title: string,
    amount: real,
    oldPrice: real,
    stock: nat,
    life: nat,
    mfd: Option<int>,
    tags: string,
    category: CategoryId)

  /** `AddProductForm.is_valid()` with its cleaned data: the field checks
      and then `clean_<field>` for each field, in the form's field order
      (the category, a required choice among `categories`, comes last),
      then the model's length and decimal validators. */
  function CleanProductForm(input: ProductInput, limits: FieldLimits, categories: set<CategoryId>, now: int)
    : (r: Checked<ProductForm>)
    ensures r.Pass? ==>
      var f := r.value;
      f.title != [] && |f.title| <= limits.titleLength && f.amount >= MinProductPrice && f.oldPrice >= 0.0
      && FitsDecimal(f.amount, limits.amountDigits) && FitsDecimal(f.oldPrice, limits.amountDigits)
      && (f.mfd.None? || f.mfd.value <= now) && f.category in categories
  {
    var title := Strip(input.title);
    if title == [] then Fail(Required)
    else if input.amount.None? then Fail(Required)
    else if input.amount.value < MinProductPrice then Fail(BelowFieldMinimum)
    else
      var amount := CleanAmount(input.amount);
      var oldPrice := CleanOldPrice(input.oldPrice);
      if amount.Fail? then Fail(amount.error)
      else if input.oldPrice.Some? && !FitsDecimal(input.oldPrice.value, MaxDigitsDecimal) then Fail(TooManyDigits)
      else if oldPrice.Fail? then Fail(oldPrice.error)
      else if input.stock.None? then Fail(Required)
      else if input.stock.value < 0 then Fail(BelowFieldMinimum)
      else
        var stock := CleanStockCount(input.stock);
        if stock.Fail? then Fail(stock.error)
        else if input.life.Some? && input.life.value < 0 then Fail(BelowFieldMinimum)
        else
          var life := CleanLife(input.life);
          var mfd := CleanMfd(input.mfd, now);
          if life.Fail? then Fail(life.error)
          else if mfd.Fail? then Fail(mfd.error)
          else if input.category.None? then Fail(Required)
          else if input.category.value !in categories then Fail(NotAChoice)
          else if |title| > limits.titleLength then Fail(TooLong)
          else if !FitsDecimal(amount.value, limits.amountDigits) || !FitsDecimal(oldPrice.value, limits.amountDigits)
          then Fail(TooManyDigits)
          else Pass(ProductForm(title, amount.value, oldPrice.value, stock.value, life.value, mfd.value,
                                Strip(input.tags), input.category.value))
  }

  /** The product form is accepted exactly when the stripped title is not
      empty, the price is at least 0.01, the old price is absent or not
      negative, the stock is given and not negative, the life is absent or
      not negative, the manufacture date is not after `now`, an existing
      category is chosen, the title fits its column and both prices keep
      whole cents within their columns; a price of exactly 0.01 and a
      stock of 0 are accepted. */
  lemma ProductFormAccepts(input: ProductInput, limits: FieldLimits, categories: set<CategoryId>, now: int)
    ensures CleanProductForm(input, limits, categories, now).Pass? <==>
      Strip(input.title) != [] && |Strip(input.title)| <= limits.titleLength
      && input.amount.Some? && input.amount.value >= MinProductPrice
      && FitsDecimal(input.amount.value, limits.amountDigits)
      && (input.oldPrice.None? || (input.oldPrice.value >= 0.0 && FitsDecimal(input.oldPrice.value, MaxDigitsDecimal)
                                   && FitsDecimal(input.oldPrice.value, limits.amountDigits)))
      && input.stock.Some? && input.stock.value >= 0
      && (input.life.None? || input.life.value >= 0)
      && (input.mfd.None? || input.mfd.value <= now)
      && input.category.Some? && input.category.value in categories
    ensures CleanProductForm(input, limits, categories, now).Pass? ==>
      var f := CleanProductForm(input, limits, categories, now).value;
      f.amount == input.amount.value && f.amount > 0.0 && f.oldPrice >= 0.0
      && f.stock == input.stock.value && IsStripped(f.title) && f.title != []
      && f.category == input.category.value
  {
    StripIsSlice(input.title);
    if input.amount.Some? && FitsDecimal(input.amount.value, limits.amountDigits) {
      FitsDecimalCents(0, limits.amountDigits);
      assert 0.0 as real / 100.0 == 0.0;
    }
  }

  // ------------------------------------------------------------ coupon form

  /** `clean_code` on the field's stripped text: upper-cased and stripped,
      then refused if empty, shorter than three characters, or equal to the
      code of another coupon (the coupon being edited excepted). */
  function CleanCode(code: string, coupons: map<CouponId, Coupon>, editing: Option<CouponId>): (r: Checked<string>)
    ensures r.Pass? ==> r.value == CanonicalCode(code) && |r.value| >= MinCouponCodeLength
    ensures r.Pass? ==> forall id | id in coupons && Some(id) != editing :: coupons[id].code != r.value
    ensures r == Fail(EmptyCode) <==> CanonicalCode(code) == []
    ensures r == Fail(CodeTooShort) <==> 0 < |CanonicalCode(code)| < MinCouponCodeLength
  {
    var c := CanonicalCode(code);
    if c == [] then Fail(EmptyCode)
    else if |c| < MinCouponCodeLength then Fail(CodeTooShort)
    else if exists id | id in coupons && Some(id) != editing :: coupons[id].code == c then Fail(DuplicateCode)
    else Pass(c)
  }

  /** `clean_expiry_date`: an expiry at or before `now` is refused. */
  function CleanExpiry(expiry: int, now: int): (r: Checked<int>)
    ensures r.Pass? <==> expiry > now
    ensures r.Pass? ==> r.value == expiry
  {
    if expiry <= now then Fail(PastExpiry) else Pass(expiry)
  }

  /** `clean_discount`: a missing percentage, or one outside [0, 100], is
      refused. */
  function CleanDiscount(discount: Option<real>): (r: Checked<real>)
    ensures r.Pass? <==> discount.Some? && MinDiscountPercentage <= discount.value <= MaxDiscountPercentage
    ensures r.Pass? ==> r.value == discount.value
  {
    if discount.None? then Fail(MissingDiscount)
    else if discount.value < MinDiscountPercentage then Fail(NegativeDiscount)
    else if discount.value > MaxDiscountPercentage then Fail(DiscountTooHigh)
    else Pass(discount.value)
  }

  /** `clean`: when both amounts are given and non-zero, the cap may not
      exceed the minimum order. */
  predicate CapWithinMinimum(maxDiscount: Option<real>, minOrder: Option<real>)
  {
    !(maxDiscount.Some? && maxDiscount.value != 0.0 && minOrder.Some? && minOrder.value != 0.0
      && maxDiscount.value > minOrder.value)
  }

  /** The coupon form as posted. */
  datatype CouponInput = CouponInput(
    code: string,
    discount: Option<real>,
    active: bool,
    expiry: Option<int>,
    minOrder: Option<real>,
    maxDiscount: Option<real>,
    oncePerUser: bool)

  /** `CouponForm.is_valid()` with the cleaned coupon for `vendor`:
      the required fields, the code's `max_length`, `clean_code`,
      `clean_discount`, `clean_expiry_date`, the two amounts' decimal
      limits, and then `clean`. */
  function CleanCouponForm(input: CouponInput, limits: FieldLimits, vendor: VendorId, coupons: map<CouponId, Coupon>,
                           editing: Option<CouponId>, now: int): (r: Checked<Coupon>)
    ensures r.Pass? ==>
      var c := r.value;
      c.vendor == vendor && |c.code| >= MinCouponCodeLength
      && (forall id | id in coupons && Some(id) != editing :: coupons[id].code != c.code)
      && MinDiscountPercentage <= c.discount <= MaxDiscountPercentage && c.expiry > now
      && FitsDecimal(c.minOrder, limits.amountDigits) && FitsDecimal(c.maxDiscount, limits.amountDigits)
      && CapWithinMinimum(Some(c.maxDiscount), Some(c.minOrder))
  {
    var text := Strip(input.code);
    if text == [] then Fail(Required)
    else if |text| > limits.codeLength then Fail(TooLong)
    else
      var code := CleanCode(text, coupons, editing);
      var discount := CleanDiscount(input.discount);
      if code.Fail? then Fail(code.error)
      else if input.discount.None? then Fail(Required)
      else if discount.Fail? then Fail(discount.error)
      else if input.expiry.None? then Fail(Required)
      else
        var expiry := CleanExpiry(input.expiry.value, now);
        if expiry.Fail? then Fail(expiry.error)
        else if input.minOrder.None? || input.maxDiscount.None? then Fail(Required)
        else if !FitsDecimal(input.minOrder.value, limits.amountDigits)
                || !FitsDecimal(input.maxDiscount.value, limits.amountDigits) then Fail(TooManyDigits)
        else if !CapWithinMinimum(input.maxDiscount, input.minOrder) then Fail(CapAboveMinimum)
        else Pass(Coupon(vendor, code.value, discount.value, input.active, expiry.value,
                         input.minOrder.value, input.maxDiscount.value, input.oncePerUser))
  }

  /** An accepted coupon has an upper-case, stripped code of at least three
      characters that no other coupon has, a percentage in [0, 100], an
      expiry after `now`, whole-cent amounts within their column, and a
      cap no greater than a non-zero minimum order; and every posted form
      meeting those conditions, with a code that fits its column, is
      accepted. */
  lemma CouponFormAccepts(input: CouponInput, limits: FieldLimits, vendor: VendorId, coupons: map<CouponId, Coupon>,
                          editing: Option<CouponId>, now: int)
    ensures var r := CleanCouponForm(input, limits, vendor, coupons, editing, now);
      r.Pass? <==>
        var code := CanonicalCode(Strip(input.code));
        |code| >= MinCouponCodeLength && |Strip(input.code)| <= limits.codeLength
        && (forall id | id in coupons && Some(id) != editing :: coupons[id].code != code)
        && input.discount.Some? && 0.0 <= input.discount.value <= 100.0
        && input.expiry.Some? && input.expiry.value > now
        && input.minOrder.Some? && input.maxDiscount.Some?
        && FitsDecimal(input.minOrder.value, limits.amountDigits)
        && FitsDecimal(input.maxDiscount.value, limits.amountDigits)
        && CapWithinMinimum(input.maxDiscount, input.minOrder)
    ensures var r := CleanCouponForm(input, limits, vendor, coupons, editing, now);
      r.Pass? ==>
        IsUpper(r.value.code) && IsStripped(r.value.code) && |r.value.code| >= MinCouponCodeLength
        && r.value.vendor == vendor && r.value.expiry > now
        && 0.0 <= r.value.discount <= 100.0
        && (r.value.maxDiscount != 0.0 && r.value.minOrder != 0.0 ==> r.value.maxDiscount <= r.value.minOrder)
  {
    var text := Strip(input.code);
    CanonicalCodeIdempotent(text);
    if text == [] {
      assert CanonicalCode(text) == Strip(Upper([]));
      assert Upper([]) == [];
    }
  }

  /** The form does not check the sign of the cap: a coupon it accepts
      with a non-negative cap never takes checkout's total below 0 or
      above the subtotal, whereas a negative cap (which a zero minimum
      order lets through) raises the total above the subtotal. */
  lemma AcceptedCouponTotal(input: CouponInput, limits: FieldLimits, vendor: VendorId, coupons: map<CouponId, Coupon>,
                            editing: Option<CouponId>, now: int, subtotal: real)
    requires CleanCouponForm(input, limits, vendor, coupons, editing, now).Pass?
    requires subtotal >= 0.0
    ensures var c := CleanCouponForm(input, limits, vendor, coupons, editing, now).value;
      (c.maxDiscount >= 0.0 ==> 0.0 <= Total(subtotal, Some(c)) <= subtotal)
      && (c.maxDiscount < 0.0 ==> Total(subtotal, Some(c)) > subtotal)
  {
    CouponFormAccepts(input, limits, vendor, coupons, editing, now);
    var c := CleanCouponForm(input, limits, vendor, coupons, editing, now).value;
    if c.maxDiscount >= 0.0 {
      DiscountBounds(subtotal, c);
    } else {
      assert Discount(subtotal, c) <= c.maxDiscount;
    }
  }
}
