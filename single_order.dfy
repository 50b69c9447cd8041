/** The single-item purchase: one product bought by its human-facing id, checked against
    availability and stock, priced with the percentage discount, recorded as an order and
    taken out of stock. */
module SingleOrder {
  import opened Js
  import opened Records

  /** The unit price after a percentage discount: the price less `discount` percent of it. */
  function PercentPrice(price: real, discount: real): (r: real)
    ensures discount == 0.0 ==> r == price
    ensures discount == 100.0 ==> r == 0.0
    ensures price >= 0.0 && 0.0 <= discount <= 100.0 ==> 0.0 <= r <= price
  {
    PercentPriceBounds(price, discount);
    price - price * (discount / 100.0)
  }

  lemma PercentPriceBounds(price: real, discount: real)
    ensures price >= 0.0 && 0.0 <= discount <= 100.0 ==>
      0.0 <= price * (discount / 100.0) <= price
  {
    if price >= 0.0 && 0.0 <= discount <= 100.0 {
      var f := discount / 100.0;
      assert 0.0 <= f <= 1.0;
      assert price * f <= price * 1.0;
    }
  }

  /** The shipping address snapshot taken from the buyer's profile. The profile keeps
      the postal code as `zip`, but the snapshot reads `pincode`, so it is never copied. */
  function ShippingSnapshot(u: User): (a: ShippingAddress)
    ensures a.name == u.fullname && a.email == u.email
    ensures a.addressLine == u.address.street && a.city == u.address.city && a.state == u.address.state
    ensures a.pincode == None && a.phone == "NA"
  {
    ShippingAddress(u.fullname, u.email, u.address.street, u.address.city, u.address.state, None, "NA")
  }

  /** The stored payment method: the given one lower-cased, or "cod" when that is empty. */
  function StoredPaymentMethod(raw: string): (m: string)
    ensures m != ""
    ensures raw == "" ==> m == "cod"
    ensures raw != "" ==> m == ToLower(raw) && |m| == |raw|
  {
    var lowered := ToLower(raw);
    if lowered == "" then "cod" else lowered
  }

  /** `paymentMethod === "cod" ? "pending" : "completed"`, on the raw value. */
  function PaymentStatusOf(raw: string): (s: PaymentStatus)
    ensures s == PaymentPending <==> raw == "cod"
    ensures s == PaymentPending || s == Completed
  {
    if raw == "cod" then PaymentPending else Completed
  }

  /** The method is stored lower-cased but the status is decided on the raw value, so an
      order paid "COD" is stored as "cod" and marked completed. */
  lemma UpperCaseCashOnDelivery()
    ensures StoredPaymentMethod("COD") == "cod"
    ensures PaymentStatusOf("COD") == Completed
  {
    var m := StoredPaymentMethod("COD");
    assert m[0] == 'c' && m[1] == 'o' && m[2] == 'd';
  }

  /** The order a purchase records: one line at the discounted unit price, the total for the
      quantity, status pending; no discount or coupon is written. */
  function PurchaseOrder(buyer: ObjectId, key: ObjectId, p: Product, quantity: int, raw: string,
                         shipping: ShippingAddress, now: int): (o: Order)
    ensures o.userId == buyer && o.status == Pending
    ensures o.products == [Line(key, quantity, PercentPrice(p.price, p.discount))]
    ensures o.totalAmount == LinesTotal(o.products)
    ensures o.paymentMethod == StoredPaymentMethod(raw) && o.paymentStatus == PaymentStatusOf(raw)
    ensures o.shippingAddress == Some(shipping) && o.discount == None && o.couponCode == None
  {
    var unit := PercentPrice(p.price, p.discount);
    var lines := [Line(key, quantity, unit)];
    assert lines[..0] == [];
    Order(buyer, lines, unit * quantity as real, Pending, StoredPaymentMethod(raw), PaymentStatusOf(raw),
          Some(shipping), None, None, now)
  }

  /** The product after selling `quantity`: stock goes down by exactly that much, the
      availability flag drops when stock reaches zero or below, nothing else changes. */
  function Sold(p: Product, quantity: int): (r: Product)
    ensures r.stock == p.stock - quantity
    ensures r.isavailable <==> p.isavailable && r.stock > 0
    ensures r.(stock := p.stock, isavailable := p.isavailable) == p
  {
    var q := p.(stock := p.stock - quantity);
    if q.stock <= 0 then q.(isavailable := false) else q
  }

  /** `placeSingleOrder`. A missing payment method fails before anything else (its
      `toLowerCase` throws, reported as 500); an unknown or unavailable product is 404; too
      little stock is 400; otherwise the order is stored under the new, unused id and the product is
      taken out of stock. The failures change nothing. */
  method PlaceSingleOrder(products: Collection<Product>, orders: Collection<Order>, buyerId: ObjectId, buyer: User,
                          code: string, quantity: int, paymentMethod: Option<string>, newId: ObjectId, now: int)
    returns (status: int, orderId: Option<ObjectId>)
    requires UniqueCodes(products.records)
    requires newId !in orders.records
    modifies products, orders
    ensures forall k :: k in old(orders.records) ==> k in orders.records && orders.records[k] == old(orders.records)[k]
    ensures status == 201 ==> |orders.records| == |old(orders.records)| + 1
    ensures status != 201 ==>
      orderId == None && products.records == old(products.records) && orders.records == old(orders.records)
    ensures paymentMethod.None? ==> status == 500
    ensures var found := FindByCode(old(products.records), code);
      paymentMethod.Some? && (found.None? || !old(products.records)[found.value].isavailable) ==> status == 404
    ensures var found := FindByCode(old(products.records), code);
      (paymentMethod.Some? && found.Some? && old(products.records)[found.value].isavailable &&
       old(products.records)[found.value].stock < quantity) ==> status == 400
    ensures status == 201 ==>
      paymentMethod.Some? && FindByCode(old(products.records), code).Some? &&
      var k := FindByCode(old(products.records), code).value;
      var p := old(products.records)[k];
      p.isavailable && p.stock >= quantity && orderId == Some(newId) &&
      orders.records == old(orders.records)[newId := PurchaseOrder(buyerId, k, p, quantity, paymentMethod.value,
                                                                   ShippingSnapshot(buyer), now)] &&
      products.records == old(products.records)[k := Sold(p, quantity)]
    ensures var found := FindByCode(old(products.records), code);
      (paymentMethod.Some? && found.Some? && old(products.records)[found.value].isavailable &&
       old(products.records)[found.value].stock >= quantity) ==> status == 201
  {
    if paymentMethod.None? {
      return 500, None;
    }
    var found := FindByCode(products.records, code);
    if found.None? || !products.records[found.value].isavailable {
      return 404, None;
    }
    var key := found.value;
    var product := products.records[key];
    if product.stock < quantity {
      return 400, None;
    }
    var order := PurchaseOrder(buyerId, key, product, quantity, paymentMethod.value, ShippingSnapshot(buyer), now);
    orders.records := orders.records[newId := order];
    product := product.(stock := product.stock - quantity);
    if product.stock <= 0 {
      product := product.(isavailable := false);
    }
    products.records := products.records[key := product];
    status, orderId := 201, Some(newId);
  }
}
