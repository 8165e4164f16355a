/** The vendor's order status change (useradmin/views.py
    `change_order_status`): a delivered order stays delivered, and a status
    may only move forward along pending, processing, shipped, delivered. */
module OrderStatus {
  import opened Common
  import opened Models

  /** The position of a status in the progression; any other text is 0. */
  function Rank(status: string): (n: nat)
    ensures n <= 4
    ensures n == 1 <==> status == PENDING
    ensures n == 2 <==> status == PROCESSING
    ensures n == 3 <==> status == SHIPPED
    ensures n == 4 <==> status == DELIVERED
    ensures n == 0 <==> status !in {PENDING, PROCESSING, SHIPPED, DELIVERED}
  {
    if status == PENDING then 1
    else if status == PROCESSING then 2
    else if status == SHIPPED then 3
    else if status == DELIVERED then 4
    else 0
  }

  /** The rank of the posted status; a missing field ranks 0. */
  function PostedRank(posted: Option<string>): nat
  {
    if posted.None? then 0 else Rank(posted.value)
  }

  /** What happens to a posted status. `SaveFailed` is a missing status that
      passes both checks and is then saved into a column that allows no
      null. */
  datatype StatusDecision = Accept | RejectDelivered | RejectBackward | SaveFailed

  /** The two checks of `change_order_status`, in their order. */
  function DecideStatus(current: string, posted: Option<string>): (d: StatusDecision)
    ensures d == Accept ==> posted.Some? && Rank(posted.value) >= Rank(current)
    ensures d == SaveFailed ==> posted.None? && current != DELIVERED && Rank(current) == 0
  {
    if current == DELIVERED && posted != Some(DELIVERED) then RejectDelivered
    else if Rank(current) > PostedRank(posted) then RejectBackward
    else if posted.None? then SaveFailed
    else Accept
  }

  /** A status is stored exactly when it is posted, ranks at least as high
      as the current one, and the order is not delivered unless the posted
      status is `delivered` again. The same status posted again is
      accepted. */
  lemma AcceptExactlyForward(current: string, posted: Option<string>)
    ensures DecideStatus(current, posted) == Accept <==>
      posted.Some? && Rank(posted.value) >= Rank(current) && (current == DELIVERED ==> posted.value == DELIVERED)
    ensures DecideStatus(current, Some(current)) == Accept
    ensures DecideStatus(current, posted) == RejectDelivered <==> current == DELIVERED && posted != Some(DELIVERED)
  {
  }

  /** The status after a run of posted changes, each decided on the status
      the previous ones left. */
  function AfterPosts(status: string, posts: seq<Option<string>>): string
  {
    if posts == [] then status
    else
      var before := AfterPosts(status, posts[..|posts| - 1]);
      var posted := posts[|posts| - 1];
      if DecideStatus(before, posted) == Accept then posted.value else before
  }

  /** Over any run of changes the rank never drops, a delivered order stays
      delivered, and an order in the progression never leaves it. */
  lemma {:induction false} RankNeverDrops(status: string, posts: seq<Option<string>>)
    ensures Rank(AfterPosts(status, posts)) >= Rank(status)
    ensures status == DELIVERED ==> AfterPosts(status, posts) == DELIVERED
    ensures Rank(status) > 0 ==> Rank(AfterPosts(status, posts)) > 0
  {
    if posts != [] {
      RankNeverDrops(status, posts[..|posts| - 1]);
    }
  }

  /** What `change_order_status` answers. */
  datatype StatusOutcome =
    | OrderMissing        // "Order not found."
    | NotOwner            // the order belongs to another vendor
    | Shown               // not a POST: back to the order page
    | Decided(d: StatusDecision)

  /** `change_order_status` for the vendor `vendor`. */
  method ChangeOrderStatus(db: Store, vendor: VendorId, oid: OrderId, isPost: bool, posted: Option<string>)
    returns (r: StatusOutcome)
    requires db.Valid()
    modifies db`orders
    ensures db.Valid()
    ensures r == (if oid !in old(db.orders) then OrderMissing
                  else if old(db.orders)[oid].vendor != vendor then NotOwner
                  else if !isPost then Shown
                  else Decided(DecideStatus(old(db.orders)[oid].status, posted)))
    ensures db.orders ==
      if r == Decided(Accept) then old(db.orders)[oid := old(db.orders)[oid].(status := posted.value)] else old(db.orders)
  {
    if oid !in db.orders {
      return OrderMissing;
    }
    var order := db.orders[oid];
    if order.vendor != vendor {
      return NotOwner;
    }
    if !isPost {
      return Shown;
    }
    var d := DecideStatus(order.status, posted);
    if d == Accept {
      db.orders := db.orders[oid := order.(status := posted.value)];
    }
    r := Decided(d);
  }

  /** `cod_accept` sets a shipped order back to processing, a move this
      view refuses as backward. */
  lemma CodAcceptMovesBackward()
    ensures DecideStatus(SHIPPED, Some(PROCESSING)) == RejectBackward
    ensures Rank(PROCESSING) < Rank(SHIPPED)
  {
  }
}
