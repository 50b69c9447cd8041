/** The stored records of the storefront backend (the Mongoose models under backend/src/Models) as value
    types, and the collections that hold them. A collection is an object whose `records`
    map the handlers rewrite, one collection per Mongoose model. */
module Records {
  import opened Js

  /** A storage-assigned identity, as the string that `ObjectId#toString` prints. */
  type ObjectId = string

  predicate IsHexDigit(c: char) {
    '0' <= c <= '9' || 'a' <= c <= 'f' || 'A' <= c <= 'F'
  }

  /** The sixteen digits of an ObjectId's hexadecimal spelling, in either case. */
  const HexDigits := "0123456789abcdefABCDEF"

  /** `mongoose.Types.ObjectId.isValid` on a string: exactly 24 hexadecimal characters. */
  predicate IsValidObjectId(s: string): (r: bool)
    ensures r <==> |s| == 24 && forall i :: 0 <= i < |s| ==> s[i] in HexDigits
  {
    |s| == 24 && forall i :: 0 <= i < |s| ==> IsHexDigit(s[i])
  }

  /** Upper-casing a valid id keeps it valid: the letters a-f become A-F. */
  lemma ValidObjectIdUpperCase(s: string)
    requires IsValidObjectId(s)
    ensures IsValidObjectId(ToUpper(s))
  {
  }

  /** The key a valid id string is looked up under: the driver reads the hex digits
      case-insensitively and ids are stored in lower case. */
  function CanonicalId(s: string): (k: ObjectId)
    ensures |k| == |s|
    ensures IsValidObjectId(s) ==> IsValidObjectId(k) && forall i :: 0 <= i < |k| ==> !('A' <= k[i] <= 'Z')
  {
    ToLower(s)
  }

  /** The hex digits are read case-insensitively: an id and its upper-cased spelling
      find the same record. */
  lemma CanonicalIdIgnoresCase(s: string)
    ensures CanonicalId(ToUpper(s)) == CanonicalId(s)
  {
    forall i | 0 <= i < |s|
      ensures LowerChar(UpperChar(s[i])) == LowerChar(s[i])
    {
    }
  }

  // ---------------------------------------------------------------------------
  // Product (product.model.js)
  // ---------------------------------------------------------------------------

  datatype Product = Product(
    productid: string,
    productname: string,
    productdescription: string,
    price: real,
    discount: real,
    images: seq<string>,
    category: string,
    rating: string,
    review: int,
    isavailable: bool,
    stock: int)

  /** The unique index on `productid`: no two products share the human-facing id. */
  predicate UniqueCodes(products: map<ObjectId, Product>): (r: bool)
    ensures products == map[] ==> r
  {
    forall k1, k2 :: k1 in products && k2 in products && products[k1].productid == products[k2].productid ==> k1 == k2
  }

  /** The index accepts a new document exactly when no stored product has its code. */
  lemma UniqueCodesInsert(products: map<ObjectId, Product>, k: ObjectId, p: Product)
    requires UniqueCodes(products) && k !in products
    ensures UniqueCodes(products[k := p]) <==> forall j :: j in products ==> products[j].productid != p.productid
  {
    var after := products[k := p];
    if exists j :: j in products && products[j].productid == p.productid {
      var j :| j in products && products[j].productid == p.productid;
      assert j in after && k in after && after[j].productid == after[k].productid && j != k;
    }
  }

  /** The lookup of a product by its human-facing id: the storage key of the product with
      that id, if there is one. */
  function FindByCode(products: map<ObjectId, Product>, code: string): (r: Option<ObjectId>)
    requires UniqueCodes(products)
    ensures r.Some? ==> r.value in products && products[r.value].productid == code
    ensures r.None? <==> forall k :: k in products ==> products[k].productid != code
  {
    if exists k :: k in products && products[k].productid == code then
      var k :| k in products && products[k].productid == code;
      Some(k)
    else
      None
  }

  // ---------------------------------------------------------------------------
  // Line items, shared by carts and orders
  // ---------------------------------------------------------------------------

  /** `{ productId, quantity, price }`: one line of a cart or of an order. The price is
      the unit price captured when the line was made. */
  datatype Line = Line(productId: ObjectId, quantity: int, price: real)

  function Amount(l: Line): real {
    l.quantity as real * l.price
  }

  /** The sum of quantity times price over the lines, left to right. */
  function LinesTotal(items: seq<Line>): (t: real)
    ensures items == [] ==> t == 0.0
    ensures |items| == 1 ==> t == items[0].quantity as real * items[0].price
  {
    if items == [] then 0.0 else LinesTotal(items[..|items| - 1]) + Amount(items[|items| - 1])
  }

  /** The total of a concatenation is the sum of the totals. */
  lemma {:induction false} LinesTotalAppend(a: seq<Line>, b: seq<Line>)
    ensures LinesTotal(a + b) == LinesTotal(a) + LinesTotal(b)
    decreases |b|
  {
    if b != [] {
      var b' := b[..|b| - 1];
      assert (a + b)[..|a + b| - 1] == a + b';
      assert (a + b)[|a + b| - 1] == b[|b| - 1];
      LinesTotalAppend(a, b');
      assert LinesTotal(a + b) == LinesTotal(a + b') + Amount(b[|b| - 1]);
    } else {
      assert a + b == a;
    }
  }

  /** Replacing one line changes the total by exactly the difference of the two amounts. */
  lemma LinesTotalUpdate(items: seq<Line>, i: nat, l: Line)
    requires i < |items|
    ensures LinesTotal(items[i := l]) == LinesTotal(items) - Amount(items[i]) + Amount(l)
  {
    var pre, post := items[..i], items[i + 1..];
    assert items == pre + [items[i]] + post;
    assert items[i := l] == pre + [l] + post;
    LinesTotalAppend(pre + [items[i]], post);
    LinesTotalAppend(pre + [l], post);
    LinesTotalAppend(pre, [items[i]]);
    LinesTotalAppend(pre, [l]);
    assert LinesTotal([items[i]]) == Amount(items[i]) by { assert [items[i]][..0] == []; }
    assert LinesTotal([l]) == Amount(l) by { assert [l][..0] == []; }
  }

  // ---------------------------------------------------------------------------
  // Cart (one per user; cart.model.js is not part of this model, its shape is the one
  // cart.controller.js reads and writes)
  // ---------------------------------------------------------------------------

  datatype Cart = Cart(items: seq<Line>, totalAmount: real)

  /** The derived total matches the lines. */
  predicate ConsistentCart(c: Cart) {
    c.totalAmount == LinesTotal(c.items)
  }

  // ---------------------------------------------------------------------------
  // Order (order.model.js)
  // ---------------------------------------------------------------------------

  /** The `status` enum of order.model.js, lines 17-21. */
  datatype OrderStatus = Pending | Confirmed | Shipped | Delivered | Cancelled

  /** The string stored for each status. */
  function StatusName(s: OrderStatus): string {
    match s
    case Pending => "pending"
    case Confirmed => "confirmed"
    case Shipped => "shipped"
    case Delivered => "delivered"
    case Cancelled => "cancelled"
  }

  /** Statuses from which an order may still be cancelled. */
  predicate Cancellable(s: OrderStatus): (r: bool)
    ensures r <==> s != Shipped && s != Delivered && s != Cancelled
  {
    s == Pending || s == Confirmed
  }

  /** The `paymentStatus` enum of order.model.js. */
  datatype PaymentStatus = PaymentPending | Paid | PaymentFailed | Completed

  /** The shipping-address sub-document of an order. */
  datatype ShippingAddress = ShippingAddress(
    name: string,
    email: string,
    addressLine: Option<string>,
    city: Option<string>,
    state: Option<string>,
    pincode: Option<string>,
    phone: string)

  /** An order record. Line items carry only the schema's fields, so a `productName`
      passed at creation is not stored; `discount` and `couponCode` are unset unless the
      creating handler writes them. */
  datatype Order = Order(
    userId: ObjectId,
    products: seq<Line>,
    totalAmount: real,
    status: OrderStatus,
    paymentMethod: string,
    paymentStatus: PaymentStatus,
    shippingAddress: Option<ShippingAddress>,
    discount: Option<real>,
    couponCode: Option<string>,
    createdAt: int)

  // ---------------------------------------------------------------------------
  // User (user.model.js)
  // ---------------------------------------------------------------------------

  /** The embedded address: `type`, `street`, `city`, `state`, `zip`. */
  datatype Address = Address(
    kind: Option<string>,
    street: Option<string>,
    city: Option<string>,
    state: Option<string>,
    zip: Option<string>)

  /** A user; `refrestoken` is the schema's own spelling of the stored refresh token. */
  datatype User = User(
    fullname: string,
    username: string,
    email: string,
    refrestoken: Option<string>,
    address: Address)

  // ---------------------------------------------------------------------------
  // Collections
  // ---------------------------------------------------------------------------

  /** One MongoDB collection: documents by storage id (carts by owning user). */
  class Collection<V> {
    var records: map<ObjectId, V>

    constructor (initial: map<ObjectId, V>)
      ensures records == initial
    {
      records := initial;
    }
  }
}
