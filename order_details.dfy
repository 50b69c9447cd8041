/** The buyer's view of their orders: the listing, the single-order details behind the
    ownership checks, and cancellation, which puts the ordered quantities back in stock. */
module OrderDetails {
  import opened Js
  import opened Records

  // ---------------------------------------------------------------------------
  // Display id
  // ---------------------------------------------------------------------------

  function MinNat(a: nat, b: nat): nat { if a <= b then a else b }

  /** The display id: the last eight characters (all of a shorter id), upper-cased. */
  function DisplayId(id: ObjectId): (r: string)
    ensures |r| == MinNat(8, |id|)
    ensures forall i :: 0 <= i < |r| ==> r[i] == UpperChar(id[|id| - |r| + i])
  {
    var k := MinNat(8, |id|);
    ToUpper(id[|id| - k..])
  }

  predicate IsUpperHexDigit(c: char) {
    '0' <= c <= '9' || 'A' <= c <= 'F'
  }

  /** For a storage id the display id is always eight upper-case hexadecimal digits. */
  lemma DisplayIdOfObjectId(id: ObjectId)
    requires IsValidObjectId(id)
    ensures |DisplayId(id)| == 8
    ensures forall i :: 0 <= i < 8 ==> IsUpperHexDigit(DisplayId(id)[i])
  {
    var r := DisplayId(id);
    forall i | 0 <= i < 8
      ensures IsUpperHexDigit(r[i])
    {
      assert IsHexDigit(id[16 + i]);
      assert r[i] == UpperChar(id[16 + i]);
    }
  }

  // ---------------------------------------------------------------------------
  // Formatting
  // ---------------------------------------------------------------------------

  /** One formatted line. The product fields come from the populated product and are
      absent when that product no longer exists. */
  datatype ItemView = ItemView(
    productId: Option<ObjectId>,
    productCode: Option<string>,
    name: Option<string>,
    image: Option<string>,
    price: real,
    quantity: int)

  /** One formatted order. */
  datatype OrderView = OrderView(
    id: ObjectId,
    orderId: string,
    totalAmount: real,
    status: OrderStatus,
    paymentMethod: string,
    paymentStatus: PaymentStatus,
    shippingAddress: Option<ShippingAddress>,
    createdAt: int,
    products: seq<ItemView>)

  function FormatItem(products: map<ObjectId, Product>, l: Line): (v: ItemView)
    ensures v.price == l.price && v.quantity == l.quantity
    ensures v.productId.Some? <==> l.productId in products
    ensures l.productId in products ==>
      v.productId == Some(l.productId) && v.productCode == Some(products[l.productId].productid) &&
      v.name == Some(products[l.productId].productname) &&
      (v.image.Some? <==> |products[l.productId].images| > 0)
    ensures l.productId !in products ==> v.productCode == None && v.name == None && v.image == None
  {
    if l.productId in products then
      var p := products[l.productId];
      ItemView(Some(l.productId), Some(p.productid), Some(p.productname),
               if |p.images| > 0 then Some(p.images[0]) else None, l.price, l.quantity)
    else ItemView(None, None, None, None, l.price, l.quantity)
  }

  function FormatItems(products: map<ObjectId, Product>, lines: seq<Line>): (vs: seq<ItemView>)
    ensures |vs| == |lines|
    ensures forall i :: 0 <= i < |lines| ==> vs[i] == FormatItem(products, lines[i])
  {
    if lines == [] then [] else [FormatItem(products, lines[0])] + FormatItems(products, lines[1..])
  }

  function FormatOrder(products: map<ObjectId, Product>, id: ObjectId, o: Order): (v: OrderView)
    ensures v.id == id && v.orderId == DisplayId(id) && v.totalAmount == o.totalAmount && v.status == o.status
    ensures v.paymentMethod == o.paymentMethod && v.paymentStatus == o.paymentStatus
    ensures v.shippingAddress == o.shippingAddress && v.createdAt == o.createdAt
    ensures v.products == FormatItems(products, o.products)
    ensures |v.products| == |o.products|
    ensures forall i :: 0 <= i < |o.products| ==>
      v.products[i].price == o.products[i].price && v.products[i].quantity == o.products[i].quantity
  {
    OrderView(id, DisplayId(id), o.totalAmount, o.status, o.paymentMethod, o.paymentStatus, o.shippingAddress,
              o.createdAt, FormatItems(products, o.products))
  }

  // ---------------------------------------------------------------------------
  // getMyOrders
  // ---------------------------------------------------------------------------

  /** Newest first by creation time. */
  predicate NewestFirst(orders: map<ObjectId, Order>, listing: seq<ObjectId>)
    requires forall x :: x in listing ==> x in orders
  {
    forall i, j :: 0 <= i < j < |listing| ==> orders[listing[i]].createdAt >= orders[listing[j]].createdAt
  }

  predicate Distinct(listing: seq<ObjectId>) {
    forall i, j :: 0 <= i < j < |listing| ==> listing[i] != listing[j]
  }

  /** Places `k` after every order at least as new. */
  function InsertByDate(orders: map<ObjectId, Order>, listing: seq<ObjectId>, k: ObjectId): (r: seq<ObjectId>)
    requires k in orders
    requires forall x :: x in listing ==> x in orders
    ensures |r| == |listing| + 1
    ensures forall x :: x in r <==> x in listing || x == k
  {
    if listing == [] then [k]
    else if orders[listing[0]].createdAt >= orders[k].createdAt then [listing[0]] + InsertByDate(orders, listing[1..], k)
    else [k] + listing
  }

  /** Inserting keeps a newest-first listing newest first. */
  lemma {:induction false} InsertByDateSorted(orders: map<ObjectId, Order>, listing: seq<ObjectId>, k: ObjectId)
    requires k in orders
    requires forall x :: x in listing ==> x in orders
    requires NewestFirst(orders, listing)
    ensures NewestFirst(orders, InsertByDate(orders, listing, k))
  {
    if listing == [] {
      assert InsertByDate(orders, listing, k) == [k];
    } else if orders[listing[0]].createdAt >= orders[k].createdAt {
      var head, tail := listing[0], listing[1..];
      var rest := InsertByDate(orders, tail, k);
      assert NewestFirst(orders, tail) by {
        forall a, b | 0 <= a < b < |tail|
          ensures orders[tail[a]].createdAt >= orders[tail[b]].createdAt
        {
          assert tail[a] == listing[a + 1] && tail[b] == listing[b + 1];
        }
      }
      InsertByDateSorted(orders, tail, k);
      forall x | x in rest
        ensures orders[head].createdAt >= orders[x].createdAt
      {
        if x != k {
          var j :| 0 <= j < |tail| && tail[j] == x;
          assert listing[j + 1] == x;
        }
      }
      PrependNewest(orders, head, rest);
      assert InsertByDate(orders, listing, k) == [head] + rest;
    } else {
      forall x | x in listing
        ensures orders[k].createdAt >= orders[x].createdAt
      {
        var j :| 0 <= j < |listing| && listing[j] == x;
        if j > 0 {
          assert orders[listing[0]].createdAt >= orders[listing[j]].createdAt;
        }
      }
      PrependNewest(orders, k, listing);
      assert InsertByDate(orders, listing, k) == [k] + listing;
    }
  }

  /** An order at least as new as every listed one can go first. */
  lemma PrependNewest(orders: map<ObjectId, Order>, head: ObjectId, rest: seq<ObjectId>)
    requires head in orders
    requires forall x :: x in rest ==> x in orders
    requires NewestFirst(orders, rest)
    requires forall x :: x in rest ==> orders[head].createdAt >= orders[x].createdAt
    ensures NewestFirst(orders, [head] + rest)
  {
    var r := [head] + rest;
    forall a, b | 0 <= a < b < |r|
      ensures orders[r[a]].createdAt >= orders[r[b]].createdAt
    {
      if a > 0 {
        assert r[a] == rest[a - 1] && r[b] == rest[b - 1];
      } else {
        assert r[b] in rest;
      }
    }
  }

  /** Inserting an order not yet listed keeps the listing free of repeats. */
  lemma {:induction false} InsertByDateDistinct(orders: map<ObjectId, Order>, listing: seq<ObjectId>, k: ObjectId)
    requires k in orders
    requires forall x :: x in listing ==> x in orders
    requires Distinct(listing) && k !in listing
    ensures Distinct(InsertByDate(orders, listing, k))
  {
    if listing != [] && orders[listing[0]].createdAt >= orders[k].createdAt {
      InsertByDateDistinct(orders, listing[1..], k);
      var rest := InsertByDate(orders, listing[1..], k);
      assert listing[0] !in rest;
    }
  }

  /** The caller's orders sorted by creation time, newest first: each of them once, and
      no one else's. */
  method MyOrders(orders: map<ObjectId, Order>, user: ObjectId) returns (listing: seq<ObjectId>)
    ensures forall i :: 0 <= i < |listing| ==> listing[i] in orders && orders[listing[i]].userId == user
    ensures forall k :: k in orders && orders[k].userId == user ==> k in listing
    ensures Distinct(listing)
    ensures NewestFirst(orders, listing)
  {
    var remaining := orders.Keys;
    listing := [];
    while remaining != {}
      invariant remaining <= orders.Keys
      invariant forall x :: x in listing ==> x in orders && orders[x].userId == user && x !in remaining
      invariant forall k :: k in orders && orders[k].userId == user ==> k in listing || k in remaining
      invariant Distinct(listing)
      invariant NewestFirst(orders, listing)
      decreases remaining
    {
      var k :| k in remaining;
      remaining := remaining - {k};
      if orders[k].userId == user {
        InsertByDateSorted(orders, listing, k);
        InsertByDateDistinct(orders, listing, k);
        listing := InsertByDate(orders, listing, k);
      }
    }
  }

  /** `getMyOrders`: the caller's orders, formatted, newest first. */
  method GetMyOrders(orders: map<ObjectId, Order>, products: map<ObjectId, Product>, user: ObjectId)
    returns (views: seq<OrderView>)
    ensures forall i :: 0 <= i < |views| ==> views[i].id in orders && orders[views[i].id].userId == user
    ensures forall k :: k in orders && orders[k].userId == user ==> exists i :: 0 <= i < |views| && views[i].id == k
    ensures forall i, j :: 0 <= i < j < |views| ==> views[i].id != views[j].id
    ensures forall i, j :: 0 <= i < j < |views| ==> views[i].createdAt >= views[j].createdAt
    ensures forall i :: 0 <= i < |views| ==> views[i] == FormatOrder(products, views[i].id, orders[views[i].id])
  {
    var listing := MyOrders(orders, user);
    views := seq(|listing|, i requires 0 <= i < |listing| => FormatOrder(products, listing[i], orders[listing[i]]));
    forall k | k in orders && orders[k].userId == user
      ensures exists i :: 0 <= i < |views| && views[i].id == k
    {
      var i :| 0 <= i < |listing| && listing[i] == k;
      assert views[i].id == k;
    }
  }

  // ---------------------------------------------------------------------------
  // getOrderDetails
  // ---------------------------------------------------------------------------

  datatype DetailReply = DetailReply(status: int, order: Option<OrderView>)

  /** `getOrderDetails`: 400 for an id that is not a storage id, 404 for no such order, 403
      for someone else's order, else the formatted order. */
  function GetOrderDetails(orders: map<ObjectId, Order>, products: map<ObjectId, Product>, user: ObjectId,
                           rawId: string): (r: DetailReply)
    ensures r.status == 200 <==> r.order.Some?
    ensures !IsValidObjectId(rawId) ==> r.status == 400
    ensures IsValidObjectId(rawId) && CanonicalId(rawId) !in orders ==> r.status == 404
    ensures IsValidObjectId(rawId) && CanonicalId(rawId) in orders && orders[CanonicalId(rawId)].userId != user ==>
      r.status == 403
    ensures r.status == 200 <==>
      IsValidObjectId(rawId) && CanonicalId(rawId) in orders && orders[CanonicalId(rawId)].userId == user
    ensures r.status == 200 ==>
      r.order == Some(FormatOrder(products, CanonicalId(rawId), orders[CanonicalId(rawId)]))
  {
    if !IsValidObjectId(rawId) then DetailReply(400, None)
    else
      var k := CanonicalId(rawId);
      if k !in orders then DetailReply(404, None)
      else if orders[k].userId != user then DetailReply(403, None)
      else DetailReply(200, Some(FormatOrder(products, k, orders[k])))
  }

  // ---------------------------------------------------------------------------
  // cancelOrder
  // ---------------------------------------------------------------------------

  /** Stock after putting back every line, in order, skipping products that no longer exist. */
  function RestoreStock(products: map<ObjectId, Product>, lines: seq<Line>): (r: map<ObjectId, Product>)
    ensures r.Keys == products.Keys
    ensures lines == [] ==> r == products
  {
    if lines == [] then products
    else
      var before := RestoreStock(products, lines[..|lines| - 1]);
      var l := lines[|lines| - 1];
      if l.productId in before then before[l.productId := before[l.productId].(stock := before[l.productId].stock + l.quantity)]
      else before
  }

  /** The quantity the lines hold of product `k`. */
  function QuantityOf(lines: seq<Line>, k: ObjectId): int {
    if lines == [] then 0
    else QuantityOf(lines[..|lines| - 1], k) + (if lines[|lines| - 1].productId == k then lines[|lines| - 1].quantity else 0)
  }

  /** Restoring keeps the same products, raises each one's stock by exactly the quantity the
      lines hold of it, and changes nothing else about it, availability included. */
  lemma {:induction false} RestoreStockMeaning(products: map<ObjectId, Product>, lines: seq<Line>)
    ensures RestoreStock(products, lines).Keys == products.Keys
    ensures forall k :: k in products ==>
      RestoreStock(products, lines)[k] == products[k].(stock := products[k].stock + QuantityOf(lines, k))
  {
    if lines != [] {
      RestoreStockMeaning(products, lines[..|lines| - 1]);
    }
  }

  /** `cancelOrder`: 400 for an id that is not a storage id, 404, 403, 400 unless the order
      is pending or confirmed; otherwise the order becomes cancelled and its lines go back
      into stock. */
  method CancelOrder(orders: Collection<Order>, products: Collection<Product>, user: ObjectId, rawId: string)
    returns (status: int)
    modifies orders, products
    ensures status != 200 ==> orders.records == old(orders.records) && products.records == old(products.records)
    ensures !IsValidObjectId(rawId) ==> status == 400
    ensures IsValidObjectId(rawId) && CanonicalId(rawId) !in old(orders.records) ==> status == 404
    ensures IsValidObjectId(rawId) && CanonicalId(rawId) in old(orders.records) ==>
      var o := old(orders.records)[CanonicalId(rawId)];
      (o.userId != user ==> status == 403) &&
      (o.userId == user && !Cancellable(o.status) ==> status == 400) &&
      (o.userId == user && Cancellable(o.status) ==> status == 200)
    ensures status == 200 ==>
      IsValidObjectId(rawId) && CanonicalId(rawId) in old(orders.records) &&
      var o := old(orders.records)[CanonicalId(rawId)];
      o.userId == user && Cancellable(o.status) &&
      orders.records == old(orders.records)[CanonicalId(rawId) := o.(status := Cancelled)] &&
      products.records == RestoreStock(old(products.records), o.products)
  {
    if !IsValidObjectId(rawId) {
      return 400;
    }
    var k := CanonicalId(rawId);
    if k !in orders.records {
      return 404;
    }
    var order := orders.records[k];
    if order.userId != user {
      return 403;
    }
    if !Cancellable(order.status) {
      return 400;
    }
    orders.records := orders.records[k := order.(status := Cancelled)];
    var lines := order.products;
    var i := 0;
    while i < |lines|
      invariant 0 <= i <= |lines|
      invariant products.records == RestoreStock(old(products.records), lines[..i])
      invariant orders.records == old(orders.records)[k := order.(status := Cancelled)]
    {
      assert lines[..i + 1][..i] == lines[..i];
      var item := lines[i];
      if item.productId in products.records {
        var product := products.records[item.productId];
        products.records := products.records[item.productId := product.(stock := product.stock + item.quantity)];
      }
      i := i + 1;
    }
    assert lines[..|lines|] == lines;
    status := 200;
  }
}
