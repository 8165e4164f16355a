/** The `get_discount_percentage` template filter
    (core/templatetags/discount_filters.py). */
module DiscountFilters {
  import opened Common
  import opened Models

  /** The filter on a template value: `None` stands for an object without
      `get_precentage`. A positive percentage is rounded once more to whole
      percent; anything else shows nothing. */
  function DiscountPercentage(item: Option<Product>): (r: Option<int>)
    ensures r.Some? ==> item.Some? && r.value == GetPercentage(item.value)
  {
    if item.None? then None
    else
      var pct := GetPercentage(item.value);
      RoundWhole(pct);
      if pct > 0 then Some(RoundHalfEven(pct as real)) else None
  }

  /** The filter shows a percentage exactly for a product whose own
      percentage is positive, and then it is that same whole number, at
      least 1, and the product is cheaper than its old price; a sale price
      that is not negative also keeps it at most 100. */
  lemma DiscountPercentageSpec(item: Option<Product>)
    ensures DiscountPercentage(item).Some? <==> item.Some? && GetPercentage(item.value) > 0
    ensures DiscountPercentage(item).Some? ==>
      var p := item.value;
      DiscountPercentage(item).value == GetPercentage(p) && DiscountPercentage(item).value >= 1
      && p.oldPrice > 0.0 && p.amount < p.oldPrice
      && (p.amount >= 0.0 ==> DiscountPercentage(item).value <= 100)
  {
    if item.Some? && GetPercentage(item.value) > 0 {
      var p := item.value;
      RoundWhole(GetPercentage(p));
      PositivePercentageMeansDrop(p);
      if p.amount >= 0.0 {
        PercentageBounds(p);
      }
    }
  }

  /** No old price, or an unchanged price, shows nothing. */
  lemma NoDropShowsNothing(p: Product)
    requires p.oldPrice <= 0.0 || p.amount >= p.oldPrice
    ensures DiscountPercentage(Some(p)) == None
  {
    if GetPercentage(p) > 0 {
      PositivePercentageMeansDrop(p);
    }
  }
}
