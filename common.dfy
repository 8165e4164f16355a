/** Small value types shared by every module of the storefront model. */
module Common {

  datatype Option<+T> = None | Some(value: T)

  /** A number that arrives as text (a query parameter, a session value):
      the number `int()`/`float()` reads from it, the empty string, or
      text that neither accepts. */
  datatype Field<+T> = Parsed(value: T) | Blank | Garbage

  /** No element occurs twice. */
  ghost predicate Distinct<T>(s: seq<T>)
  {
    forall i, j | 0 <= i < j < |s| :: s[i] != s[j]
  }

  /** Sum of a sequence of amounts, taken from the left as a loop does. */
  function Sum(xs: seq<real>): real
  {
    if xs == [] then 0.0 else Sum(xs[..|xs| - 1]) + xs[|xs| - 1]
  }

  /** The elements of `s` that `keep` accepts, in their original order. */
  function Filter<T(!new)>(s: seq<T>, keep: T -> bool): (r: seq<T>)
    ensures |r| <= |s|
    ensures forall x :: x in r <==> x in s && keep(x)
    ensures Distinct(s) ==> Distinct(r)
    ensures (forall i | 0 <= i < |s| :: keep(s[i])) ==> r == s
  {
    if s == [] then []
    else
      var init := s[..|s| - 1];
      var last := s[|s| - 1];
      assert s == init + [last];
      Filter(init, keep) + (if keep(last) then [last] else [])
  }

  /** `qty * price`, the amount of an order or cart line, written as
      repeated addition so that proofs about totals stay linear. */
  function Times(qty: int, price: real): real
    decreases if qty < 0 then -qty else qty
  {
    if qty == 0 then 0.0
    else if qty > 0 then Times(qty - 1, price) + price
    else Times(qty + 1, price) - price
  }

  /** `Times` is the product. */
  lemma {:induction false} TimesIsProduct(qty: int, price: real)
    ensures Times(qty, price) == qty as real * price
    decreases if qty < 0 then -qty else qty
  {
    if qty > 0 {
      TimesIsProduct(qty - 1, price);
    } else if qty < 0 {
      TimesIsProduct(qty + 1, price);
    }
  }

  /** Python's `max(0, x)`. */
  function FloorAtZero(x: int): (r: nat)
    ensures r >= x && (x >= 0 ==> r == x) && (x <= 0 ==> r == 0)
  {
    if x < 0 then 0 else x
  }
}
