/** The customer's order pages: the status label and colour, when the cancel button is
    offered, and how a confirmed cancellation updates the list page and the details page. */
module OrderStatusView {
  import opened Js
  import opened Records

  // ---------------------------------------------------------------------------
  // Status helpers (the same switches on both pages)
  // ---------------------------------------------------------------------------

  /** The five stored status strings. */
  predicate KnownStatus(s: string) {
    s == "pending" || s == "confirmed" || s == "shipped" || s == "delivered" || s == "cancelled"
  }

  /** `getStatusText`: the label shown for a status; an unknown status is shown as it is. */
  function StatusText(s: string): (t: string)
    ensures s == "pending" ==> t == "Processing"
    ensures !KnownStatus(s) ==> t == s
    ensures KnownStatus(s) && s != "pending" ==> |t| == |s| && t[1..] == s[1..] && t[0] == UpperChar(s[0])
  {
    match s
    case "pending" => "Processing"
    case "confirmed" => "Confirmed"
    case "shipped" => "Shipped"
    case "delivered" => "Delivered"
    case "cancelled" => "Cancelled"
    case _ => s
  }

  /** The label of every stored status, one per status and no two alike. */
  lemma {:induction false} StatusLabels(a: OrderStatus, b: OrderStatus)
    ensures StatusText(StatusName(a)) == StatusText(StatusName(b)) <==> a == b
    ensures StatusText(StatusName(Pending)) == "Processing"
  {
    if a != b {
      assert StatusName(a) != StatusName(b) by { StatusNamesDistinct(a, b); }
      LabelFirstChars(a);
      LabelFirstChars(b);
    }
  }

  lemma StatusNamesDistinct(a: OrderStatus, b: OrderStatus)
    requires a != b
    ensures StatusName(a) != StatusName(b)
  {
    var x, y := StatusName(a), StatusName(b);
    assert x[0] != y[0] || x[1] != y[1];
  }

  /** The first two characters of each label tell the statuses apart. */
  lemma LabelFirstChars(a: OrderStatus)
    ensures var t := StatusText(StatusName(a));
      |t| >= 2 &&
      (a == Pending ==> t[0] == 'P' && t[1] == 'r') &&
      (a == Confirmed ==> t[0] == 'C' && t[1] == 'o') &&
      (a == Shipped ==> t[0] == 'S') &&
      (a == Delivered ==> t[0] == 'D') &&
      (a == Cancelled ==> t[0] == 'C' && t[1] == 'a')
  {
  }

  /** The Tailwind classes of the status badge. */
  datatype Colour = Green | Blue | Purple | Red | Yellow

  /** `getStatusColor`: delivered, shipped, confirmed and cancelled have their own colour;
      every other status, pending and unknown ones included, is yellow. */
  function StatusColour(s: string): (c: Colour)
    ensures c == Yellow <==> s != "delivered" && s != "shipped" && s != "confirmed" && s != "cancelled"
    ensures c == Green <==> s == "delivered"
    ensures c == Blue <==> s == "shipped"
    ensures c == Purple <==> s == "confirmed"
    ensures c == Red <==> s == "cancelled"
  {
    match s
    case "delivered" => Green
    case "shipped" => Blue
    case "confirmed" => Purple
    case "cancelled" => Red
    case _ => Yellow
  }

  /** The cancel button is shown for a pending or confirmed order. */
  predicate CanCancel(s: string): (r: bool)
    ensures r <==> s == "pending" || s == "confirmed"
  {
    s in ["pending", "confirmed"]
  }

  /** The button is shown for exactly the statuses the server lets a customer cancel. */
  lemma CanCancelAgreesWithServer(st: OrderStatus)
    ensures CanCancel(StatusName(st)) <==> Cancellable(st)
  {
    if CanCancel(StatusName(st)) {
      StatusNameInverse(st);
    }
  }

  lemma StatusNameInverse(st: OrderStatus)
    ensures StatusName(st) == "pending" ==> st == Pending
    ensures StatusName(st) == "confirmed" ==> st == Confirmed
  {
    match st
    case Pending =>
    case Confirmed =>
    case Shipped => assert StatusName(st)[0] == 's';
    case Delivered => assert StatusName(st)[0] == 'd';
    case Cancelled => assert StatusName(st)[0] == 'c' && StatusName(st)[1] == 'a';
  }

  // ---------------------------------------------------------------------------
  // The orders list
  // ---------------------------------------------------------------------------

  /** An order as the pages hold it: its storage id, display id, status string, total and
      creation time. */
  datatype OrderCard = OrderCard(id: string, displayId: string, status: string, totalAmount: real, createdAt: int)

  /** The list after a cancellation: each order with the given storage id is copied with
      status "cancelled"; every other order is kept as it is. */
  function MarkCancelled(orders: seq<OrderCard>, id: string): (r: seq<OrderCard>)
    ensures |r| == |orders|
    ensures forall i :: 0 <= i < |orders| && orders[i].id == id ==> r[i] == orders[i].(status := "cancelled")
    ensures forall i :: 0 <= i < |orders| && orders[i].id != id ==> r[i] == orders[i]
  {
    seq(|orders|, i requires 0 <= i < |orders| => if orders[i].id == id then orders[i].(status := "cancelled") else orders[i])
  }

  /** Marking twice is marking once; an id not in the list changes nothing; the marked
      orders no longer offer the cancel button. */
  lemma MarkCancelledMeaning(orders: seq<OrderCard>, id: string)
    ensures MarkCancelled(MarkCancelled(orders, id), id) == MarkCancelled(orders, id)
    ensures (forall i :: 0 <= i < |orders| ==> orders[i].id != id) ==> MarkCancelled(orders, id) == orders
    ensures forall i :: 0 <= i < |orders| && orders[i].id == id ==> !CanCancel(MarkCancelled(orders, id)[i].status)
  {
    var once := MarkCancelled(orders, id);
    forall i | 0 <= i < |orders| && orders[i].id == id
      ensures !CanCancel(once[i].status)
    {
      assert once[i].status == "cancelled";
      assert "cancelled"[0] != "pending"[0] && "cancelled"[1] != "confirmed"[1];
    }
  }

  /** The answer to the cancel request: a response whose `success` flag is given, or a
      rejected request. */
  datatype CancelReply = Answered(success: bool) | Rejected

  /** The list page's order state. */
  class OrdersPage {
    var orders: seq<OrderCard>

    constructor ()
      ensures orders == []
    {
      orders := [];
    }

    /** `handleCancelOrder(orderId)`: a declined confirmation sends no request; a
        successful reply marks the orders with that id cancelled; anything else leaves the
        list as it was. */
    method Cancel(id: string, confirmed: bool, reply: CancelReply) returns (sent: bool)
      modifies this
      ensures sent == confirmed
      ensures confirmed && reply == Answered(true) ==> orders == MarkCancelled(old(orders), id)
      ensures !(confirmed && reply == Answered(true)) ==> orders == old(orders)
    {
      if !confirmed {
        return false;
      }
      sent := true;
      if reply == Answered(true) {
        orders := MarkCancelled(orders, id);
      }
    }
  }

  /** The details page's order state. */
  class OrderDetailsPage {
    var order: Option<OrderCard>

    constructor ()
      ensures order == None
    {
      order := None;
    }

    /** `handleCancelOrder` on the details page, whose button exists only once the order is
        loaded: a declined confirmation sends nothing; a successful reply sets the status to
        cancelled and keeps every other field. */
    method Cancel(confirmed: bool, reply: CancelReply) returns (sent: bool)
      requires order.Some?
      modifies this
      ensures sent == confirmed
      ensures confirmed && reply == Answered(true) ==> order == Some(old(order).value.(status := "cancelled"))
      ensures !(confirmed && reply == Answered(true)) ==> order == old(order)
    {
      if !confirmed {
        return false;
      }
      sent := true;
      if reply == Answered(true) {
        order := Some(order.value.(status := "cancelled"));
      }
    }
  }
}
