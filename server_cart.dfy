/** The server-side cart: one cart record per user, kept in a collection keyed by the
    owning user's id, and the checkout that turns it into an order. */
module ServerCart {
  import opened Js
  import opened Records
  import SingleOrder

  // ---------------------------------------------------------------------------
  // Line-list operations
  // ---------------------------------------------------------------------------

  /** The index `cart.items.find` stops at: the first line for `id`, or `|items|`. */
  function IndexOfLine(items: seq<Line>, id: ObjectId): (i: nat)
    ensures i <= |items|
    ensures i < |items| ==> items[i].productId == id
    ensures forall j :: 0 <= j < i ==> items[j].productId != id
  {
    if items == [] then 0
    else if items[0].productId == id then 0
    else 1 + IndexOfLine(items[1..], id)
  }

  /** The lines after adding `quantity` of product `id` at unit price `price`: an existing
      line gains the quantity and keeps its own price, a new product becomes a new last line. */
  function AddLine(items: seq<Line>, id: ObjectId, quantity: int, price: real): (r: seq<Line>)
    ensures |items| <= |r| <= |items| + 1
  {
    var i := IndexOfLine(items, id);
    if i < |items| then items[i := items[i].(quantity := items[i].quantity + quantity)]
    else items + [Line(id, quantity, price)]
  }

  /** The lines for any product other than `id`, in their order. */
  function WithoutProduct(items: seq<Line>, id: ObjectId): (r: seq<Line>)
    ensures |r| <= |items|
    ensures forall j :: 0 <= j < |r| ==> r[j].productId != id
  {
    if items == [] then []
    else
      var last := items[|items| - 1];
      WithoutProduct(items[..|items| - 1], id) + (if last.productId == id then [] else [last])
  }

  /** The lines `WithoutProduct` drops. */
  function OnlyProduct(items: seq<Line>, id: ObjectId): seq<Line> {
    if items == [] then []
    else
      var last := items[|items| - 1];
      OnlyProduct(items[..|items| - 1], id) + (if last.productId == id then [last] else [])
  }

  /** No two lines are for the same product. */
  predicate UniqueLines(items: seq<Line>) {
    forall i, j :: 0 <= i < j < |items| ==> items[i].productId != items[j].productId
  }

  /** `cart.items.find(...)`, as a loop. */
  method FindLine(items: seq<Line>, id: ObjectId) returns (i: nat)
    ensures i == IndexOfLine(items, id)
  {
    i := 0;
    while i < |items| && items[i].productId != id
      invariant 0 <= i <= |items|
      invariant forall j :: 0 <= j < i ==> items[j].productId != id
    {
      i := i + 1;
    }
    IndexOfLineIsFirst(items, id, i);
  }

  /** The first matching index is unique. */
  lemma {:induction false} IndexOfLineIsFirst(items: seq<Line>, id: ObjectId, i: nat)
    requires i <= |items|
    requires i < |items| ==> items[i].productId == id
    requires forall j :: 0 <= j < i ==> items[j].productId != id
    ensures i == IndexOfLine(items, id)
  {
    if items != [] && items[0].productId != id {
      IndexOfLineIsFirst(items[1..], id, i - 1);
    }
  }

  /** The lines' total, summed by a loop. */
  method SumLines(items: seq<Line>) returns (total: real)
    ensures total == LinesTotal(items)
  {
    total := 0.0;
    var i := 0;
    while i < |items|
      invariant 0 <= i <= |items|
      invariant total == LinesTotal(items[..i])
    {
      assert items[..i + 1][..i] == items[..i];
      total := total + items[i].quantity as real * items[i].price;
      i := i + 1;
    }
    assert items[..|items|] == items;
  }

  /** `items.filter(...)`, as a loop. */
  method FilterLines(items: seq<Line>, id: ObjectId) returns (kept: seq<Line>)
    ensures kept == WithoutProduct(items, id)
  {
    kept := [];
    var i := 0;
    while i < |items|
      invariant 0 <= i <= |items|
      invariant kept == WithoutProduct(items[..i], id)
    {
      assert items[..i + 1][..i] == items[..i];
      if items[i].productId != id {
        kept := kept + [items[i]];
      }
      i := i + 1;
    }
    assert items[..|items|] == items;
  }

  // ---------------------------------------------------------------------------
  // Properties of the line operations
  // ---------------------------------------------------------------------------

  /** Adding raises the total by the quantity times the price of the line that takes it:
      the existing line's captured price, or the new price for a new line. */
  lemma {:induction false} AddLineTotal(items: seq<Line>, id: ObjectId, quantity: int, price: real)
    ensures IndexOfLine(items, id) < |items| ==>
      LinesTotal(AddLine(items, id, quantity, price)) ==
        LinesTotal(items) + quantity as real * items[IndexOfLine(items, id)].price
    ensures IndexOfLine(items, id) == |items| ==>
      LinesTotal(AddLine(items, id, quantity, price)) == LinesTotal(items) + quantity as real * price
  {
    var i := IndexOfLine(items, id);
    var r := AddLine(items, id, quantity, price);
    if i < |items| {
      assert r == items[i := items[i].(quantity := items[i].quantity + quantity)];
      AddToExistingTotal(items, i, quantity);
      assert LinesTotal(r) == LinesTotal(items) + quantity as real * items[i].price;
    } else {
      var l := Line(id, quantity, price);
      assert r == items + [l];
      AppendLineTotal(items, l);
      assert Amount(l) == quantity as real * price;
      assert LinesTotal(r) == LinesTotal(items) + quantity as real * price;
    }
  }

  lemma AddToExistingTotal(items: seq<Line>, i: nat, quantity: int)
    requires i < |items|
    ensures LinesTotal(items[i := items[i].(quantity := items[i].quantity + quantity)]) ==
      LinesTotal(items) + quantity as real * items[i].price
  {
    LinesTotalUpdate(items, i, items[i].(quantity := items[i].quantity + quantity));
    IncreasedAmount(items[i], quantity);
  }

  lemma AppendLineTotal(items: seq<Line>, l: Line)
    ensures LinesTotal(items + [l]) == LinesTotal(items) + Amount(l)
  {
    assert (items + [l])[..|items|] == items;
  }

  /** A line's amount grows by the added quantity at its own price. */
  lemma IncreasedAmount(l: Line, quantity: int)
    ensures Amount(l.(quantity := l.quantity + quantity)) == Amount(l) + quantity as real * l.price
  {
    var q0, q := l.quantity as real, quantity as real;
    assert (q0 + q) * l.price == q0 * l.price + q * l.price;
  }

  /** Adding never creates a second line for a product, and the cart grows only for a
      product it did not hold. */
  lemma AddLineUnique(items: seq<Line>, id: ObjectId, quantity: int, price: real)
    requires UniqueLines(items)
    ensures UniqueLines(AddLine(items, id, quantity, price))
    ensures |AddLine(items, id, quantity, price)| == |items| + (if IndexOfLine(items, id) < |items| then 0 else 1)
  {
  }

  /** A product already in the cart keeps its line, which gains the quantity and keeps the
      price captured when it was first added; a new product becomes a new last line at the
      given price. */
  lemma AddLineMeaning(items: seq<Line>, id: ObjectId, quantity: int, price: real)
    ensures var i, r := IndexOfLine(items, id), AddLine(items, id, quantity, price);
      i < |items| ==>
        |r| == |items| && r[i].productId == id && r[i].quantity == items[i].quantity + quantity &&
        r[i].price == items[i].price
    ensures IndexOfLine(items, id) == |items| ==> AddLine(items, id, quantity, price) == items + [Line(id, quantity, price)]
  {
  }

  /** Adding touches no line for another product. */
  lemma AddLineKeepsOthers(items: seq<Line>, id: ObjectId, quantity: int, price: real)
    ensures forall j :: 0 <= j < |items| && items[j].productId != id ==> AddLine(items, id, quantity, price)[j] == items[j]
  {
  }

  /** A line survives removal exactly when it is for another product. */
  lemma {:induction false} WithoutProductMembers(items: seq<Line>, id: ObjectId)
    ensures forall l :: l in WithoutProduct(items, id) <==> l in items && l.productId != id
    ensures forall l :: l in OnlyProduct(items, id) <==> l in items && l.productId == id
  {
    if items != [] {
      WithoutProductMembers(items[..|items| - 1], id);
      assert items == items[..|items| - 1] + [items[|items| - 1]];
    }
  }

  /** Removing a product that has no line leaves the lines as they were. */
  lemma {:induction false} WithoutAbsentProduct(items: seq<Line>, id: ObjectId)
    requires forall j :: 0 <= j < |items| ==> items[j].productId != id
    ensures WithoutProduct(items, id) == items
  {
    if items != [] {
      WithoutAbsentProduct(items[..|items| - 1], id);
      assert items == items[..|items| - 1] + [items[|items| - 1]];
    }
  }

  /** The total splits into the kept lines and the dropped ones. */
  lemma {:induction false} WithoutProductTotal(items: seq<Line>, id: ObjectId)
    ensures LinesTotal(items) == LinesTotal(WithoutProduct(items, id)) + LinesTotal(OnlyProduct(items, id))
  {
    if items != [] {
      var prefix, last := items[..|items| - 1], items[|items| - 1];
      WithoutProductTotal(prefix, id);
      var one := [last];
      assert one[..0] == [];
      assert LinesTotal(one) == Amount(last);
      LinesTotalAppend(WithoutProduct(prefix, id), one);
      LinesTotalAppend(OnlyProduct(prefix, id), one);
      if last.productId == id {
        assert WithoutProduct(prefix, id) + [] == WithoutProduct(prefix, id);
        assert OnlyProduct(items, id) == OnlyProduct(prefix, id) + one;
      } else {
        assert OnlyProduct(prefix, id) + [] == OnlyProduct(prefix, id);
        assert WithoutProduct(items, id) == WithoutProduct(prefix, id) + one;
      }
    }
  }

  // ---------------------------------------------------------------------------
  // The handlers
  // ---------------------------------------------------------------------------

  /** What `getCart` answers: the stored cart, or `{ items: [] }` when the user has none. */
  datatype CartBody = StoredCart(cart: Cart) | NoItems

  function GetCart(carts: map<ObjectId, Cart>, user: ObjectId): (r: CartBody)
    ensures r == NoItems <==> user !in carts
    ensures r.StoredCart? ==> r.cart == carts[user]
  {
    if user in carts then StoredCart(carts[user]) else NoItems
  }

  /** The unit price a cart captures: list price minus discount, a flat subtraction. */
  function CartPrice(p: Product): (r: real)
    ensures p.discount == 0.0 ==> r == p.price
    ensures r <= p.price <==> p.discount >= 0.0
  {
    p.price - p.discount
  }

  /** The cart subtracts the discount as an amount while the single-item purchase applies it
      as a percentage: the two agree only when the discount is 0 or the price is 100. */
  lemma {:induction false} CartAndPurchasePricesDiffer(p: Product)
    ensures CartPrice(p) == SingleOrder.PercentPrice(p.price, p.discount) <==> p.discount == 0.0 || p.price == 100.0
  {
    var d := p.discount;
    assert SingleOrder.PercentPrice(p.price, d) == p.price - p.price * d / 100.0;
    assert CartPrice(p) - SingleOrder.PercentPrice(p.price, d) == d * (p.price - 100.0) / 100.0;
  }

  /** `addToCart`: 404 and no change for an unknown `productid`; otherwise the caller's
      cart (created when missing) gains the quantity and its total is recomputed. */
  method AddToCart(products: Collection<Product>, carts: Collection<Cart>, user: ObjectId, code: string, quantity: int)
    returns (status: int)
    requires UniqueCodes(products.records)
    modifies carts
    ensures FindByCode(products.records, code).None? ==> status == 404 && carts.records == old(carts.records)
    ensures FindByCode(products.records, code).Some? ==>
      var k := FindByCode(products.records, code).value;
      var before := if user in old(carts.records) then old(carts.records)[user].items else [];
      var after := AddLine(before, k, quantity, CartPrice(products.records[k]));
      status == 200 && carts.records == old(carts.records)[user := Cart(after, LinesTotal(after))]
  {
    var found := FindByCode(products.records, code);
    if found.None? {
      return 404;
    }
    var key := found.value;
    var price := CartPrice(products.records[key]);
    var items: seq<Line> := if user in carts.records then carts.records[user].items else [];
    var i := FindLine(items, key);
    if i < |items| {
      items := items[i := items[i].(quantity := items[i].quantity + quantity)];
    } else {
      items := items + [Line(key, quantity, price)];
    }
    var total := SumLines(items);
    carts.records := carts.records[user := Cart(items, total)];
    status := 200;
  }

  /** `removeFromCart`: 404 for an unknown `productid` or a user without a cart; otherwise
      every line for the product goes and the total is recomputed. */
  method RemoveFromCart(products: Collection<Product>, carts: Collection<Cart>, user: ObjectId, code: string)
    returns (status: int)
    requires UniqueCodes(products.records)
    modifies carts
    ensures FindByCode(products.records, code).None? || user !in old(carts.records) ==>
      status == 404 && carts.records == old(carts.records)
    ensures FindByCode(products.records, code).Some? && user in old(carts.records) ==>
      var after := WithoutProduct(old(carts.records)[user].items, FindByCode(products.records, code).value);
      status == 200 && carts.records == old(carts.records)[user := Cart(after, LinesTotal(after))]
  {
    var found := FindByCode(products.records, code);
    if found.None? {
      return 404;
    }
    if user !in carts.records {
      return 404;
    }
    var items := FilterLines(carts.records[user].items, found.value);
    var total := SumLines(items);
    carts.records := carts.records[user := Cart(items, total)];
    status := 200;
  }

  /** The order `checkoutCart` creates from a cart. The cart record carries no discount or
      coupon, so `cart.discount || 0` is 0 and `cart.couponCode || null` is null. */
  function CheckoutOrder(user: ObjectId, cart: Cart, shipping: Option<ShippingAddress>, now: int): (o: Order)
    ensures o.userId == user && o.products == cart.items && o.totalAmount == cart.totalAmount
    ensures o.status == Pending && o.paymentStatus == PaymentPending && o.paymentMethod == "COD"
    ensures o.discount == Some(0.0) && o.couponCode == None && o.shippingAddress == shipping
  {
    Order(user, cart.items, cart.totalAmount, Pending, "COD", PaymentPending, shipping, Some(0.0), None, now)
  }

  /** `checkoutCart`: 400 for a missing or empty cart; otherwise the order is stored under
      the new id, which no stored order has, and the cart is deleted. Product stock is not part of the frame. */
  method CheckoutCart(carts: Collection<Cart>, orders: Collection<Order>, user: ObjectId, newId: ObjectId,
                      shipping: Option<ShippingAddress>, now: int)
    returns (status: int, orderId: Option<ObjectId>)
    requires newId !in orders.records
    modifies carts, orders
    ensures forall k :: k in old(orders.records) ==> k in orders.records && orders.records[k] == old(orders.records)[k]
    ensures status == 201 ==> |orders.records| == |old(orders.records)| + 1
    ensures user !in old(carts.records) || old(carts.records)[user].items == [] ==>
      status == 400 && orderId == None && carts.records == old(carts.records) && orders.records == old(orders.records)
    ensures user in old(carts.records) && old(carts.records)[user].items != [] ==>
      status == 201 && orderId == Some(newId) &&
      orders.records == old(orders.records)[newId := CheckoutOrder(user, old(carts.records)[user], shipping, now)] &&
      carts.records == old(carts.records) - {user}
  {
    if user !in carts.records || |carts.records[user].items| == 0 {
      return 400, None;
    }
    var order := CheckoutOrder(user, carts.records[user], shipping, now);
    orders.records := orders.records[newId := order];
    carts.records := carts.records - {user};
    status, orderId := 201, Some(newId);
  }
}
