/** The product page: its displayed discount, the quantity stepper, the buttons' enabled
    state and the cart item it builds for "add to cart". */
module ProductDetail {
  import opened Js
  import ClientCart
  import SingleOrder
  import OrderSummary

  /** The product as the page receives it. `productid` is "" when the document has none. */
  datatype ProductDoc = ProductDoc(
    productid: string,
    storageId: string,
    productname: string,
    price: real,
    discount: real,
    images: Option<seq<string>>,
    stock: int,
    isavailable: bool)

  /** `calculateDiscountedPrice` of this page: the discount is applied only strictly between
      0 and 100 percent; any other discount shows the list price. */
  function DisplayPrice(price: real, discount: real): (r: real)
    ensures 0.0 < discount < 100.0 ==> r == price * (1.0 - discount / 100.0)
    ensures discount <= 0.0 || discount >= 100.0 ==> r == price
    ensures price >= 0.0 ==> 0.0 <= r <= price
  {
    if 0.0 < discount < 100.0 then
      DiscountFactorBounds(price, discount);
      price * (1.0 - discount / 100.0)
    else price
  }

  lemma DiscountFactorBounds(price: real, discount: real)
    requires 0.0 < discount < 100.0
    ensures price >= 0.0 ==> 0.0 <= price * (1.0 - discount / 100.0) <= price
  {
    var f := 1.0 - discount / 100.0;
    assert 0.0 < f < 1.0;
    if price >= 0.0 {
      assert price * f <= price * 1.0;
    }
  }

  /** Inside (0, 100) the page shows the unit price the purchase handler charges; at or
      beyond 100 percent the page shows the list price while the handler charges nothing or
      less. */
  lemma {:induction false} DisplayPriceAgainstPurchase(price: real, discount: real)
    ensures 0.0 <= discount < 100.0 ==> DisplayPrice(price, discount) == SingleOrder.PercentPrice(price, discount)
    ensures DisplayPrice(price, 100.0) == price && SingleOrder.PercentPrice(price, 100.0) == 0.0
  {
    if 0.0 < discount < 100.0 {
      assert price * (1.0 - discount / 100.0) == price - price * (discount / 100.0);
    }
  }

  /** The product page and the checkout page agree on every discount below 100 percent
      and disagree on a full discount of a priced product. */
  lemma {:induction false} DisplayPriceAgainstSummary(price: real, discount: real)
    ensures discount < 100.0 ==> DisplayPrice(price, discount) == OrderSummary.SummaryPrice(price, discount)
    ensures price != 0.0 ==> DisplayPrice(price, 100.0) != OrderSummary.SummaryPrice(price, 100.0)
  {
    if 0.0 < discount < 100.0 {
      assert price * (1.0 - discount / 100.0) == price * (100.0 - discount) / 100.0;
    }
  }

  /** The add-to-cart and buy-now buttons are disabled for an unavailable product or one
      whose stock is exactly 0. */
  predicate ActionsDisabled(p: ProductDoc): (r: bool)
    ensures !p.isavailable ==> r
    ensures p.stock == 0 ==> r
    ensures p.isavailable && p.stock > 0 ==> !r
  {
    !p.isavailable || p.stock == 0
  }

  /** A negative stock does not disable the buttons: only 0 does. */
  lemma NegativeStockLeavesActionsEnabled(p: ProductDoc)
    requires p.isavailable && p.stock < 0
    ensures !ActionsDisabled(p)
  {
  }

  /** `product.productid || product._id`: the id used for the cart and for buying. */
  function PublicId(p: ProductDoc): (id: string)
    ensures p.productid != "" ==> id == p.productid
    ensures p.productid == "" ==> id == p.storageId
  {
    if p.productid != "" then p.productid else p.storageId
  }

  /** The first image when there is one, else "". */
  function FirstImage(p: ProductDoc): (image: string)
    ensures p.images.Some? && |p.images.value| > 0 ==> image == p.images.value[0]
    ensures p.images.None? || p.images.value == [] ==> image == ""
  {
    if p.images.Some? && |p.images.value| > 0 then p.images.value[0] else ""
  }

  /** The item handed to the cart: the page's id for the product, its name, the displayed
      discounted price, the first image and the chosen quantity. */
  function CartItemFor(p: ProductDoc, quantity: int): (item: ClientCart.Item)
    ensures item.id == PublicId(p) && item.name == p.productname && item.quantity == quantity
    ensures item.price == DisplayPrice(p.price, p.discount) && item.image == FirstImage(p)
  {
    ClientCart.Item(PublicId(p), p.productname, DisplayPrice(p.price, p.discount), FirstImage(p), quantity)
  }

  /** The page's state: the loaded product, the chosen quantity and image, and the loading
      and error flags. */
  class ProductPage {
    var product: Option<ProductDoc>
    var quantity: int
    var selectedImage: nat
    var loading: bool
    var error: Option<string>

    /** The page opens loading, with quantity 1 and the first image selected. */
    constructor ()
      ensures product == None && quantity == 1 && selectedImage == 0 && loading && error == None
    {
      product := None;
      quantity := 1;
      selectedImage := 0;
      loading := true;
      error := None;
    }

    /** `fetchProductDetails` taking in the reply: a product is stored, and the first image
        is selected when it has images; a failed request records "Product not found".
        Loading ends either way. */
    method Load(reply: Option<ProductDoc>)
      modifies this
      ensures reply.Some? ==> product == reply && error == old(error)
      ensures reply.Some? ==> selectedImage == (if reply.value.images.Some? && |reply.value.images.value| > 0 then 0 else old(selectedImage))
      ensures reply.None? ==> product == old(product) && selectedImage == old(selectedImage)
      ensures reply.None? ==> error == Some("Product not found")
      ensures !loading && quantity == old(quantity)
    {
      if reply.Some? {
        product := reply;
        if reply.value.images.Some? && |reply.value.images.value| > 0 {
          selectedImage := 0;
        }
      } else {
        error := Some("Product not found");
      }
      loading := false;
    }

    /** `handleQuantityChange`: the same clamp as the checkout page, against the loaded
        product's stock. */
    method ChangeQuantity(change: int)
      modifies this
      ensures quantity == OrderSummary.QuantityUpdate(old(quantity), change,
                                                      if product.Some? then Some(product.value.stock) else None)
      ensures product == old(product) && selectedImage == old(selectedImage)
      ensures loading == old(loading) && error == old(error)
    {
      quantity := OrderSummary.QuantityUpdate(quantity, change, if product.Some? then Some(product.value.stock) else None);
    }

    /** `handleAddToCart`: a visitor who is not signed in is sent to the login page and
        nothing is added; before the product is loaded the handler fails and nothing is
        added; otherwise the built item is handed to the cart. The page state is unchanged. */
    method AddToCart(authenticated: bool) returns (toLogin: bool, item: Option<ClientCart.Item>)
      ensures toLogin <==> !authenticated
      ensures item.Some? <==> authenticated && product.Some?
      ensures item.Some? ==> item.value == CartItemFor(product.value, quantity)
    {
      if !authenticated {
        return true, None;
      }
      toLogin := false;
      if product.None? {
        return false, None;
      }
      item := Some(CartItemFor(product.value, quantity));
    }

    /** `handleBuyNow`: a signed-in visitor goes to the checkout page of the product's id. */
    method BuyNow(authenticated: bool) returns (toLogin: bool, checkoutId: Option<string>)
      ensures toLogin <==> !authenticated
      ensures checkoutId.Some? <==> authenticated && product.Some?
      ensures checkoutId.Some? ==> checkoutId.value == PublicId(product.value)
    {
      if !authenticated {
        return true, None;
      }
      toLogin := false;
      if product.None? {
        return false, None;
      }
      checkoutId := Some(PublicId(product.value));
    }
  }

  /** Adding the page's item to a cart that does not hold it yet appends it, so the cart's
      quantity grows by the page quantity and its amount by that quantity at the displayed
      price. */
  lemma {:induction false} AddedItemTotals(items: seq<ClientCart.Item>, p: ProductDoc, quantity: int)
    requires ClientCart.IndexOfId(items, PublicId(p)) == |items|
    ensures ClientCart.Merge(items, CartItemFor(p, quantity)) == items + [CartItemFor(p, quantity)]
    ensures ClientCart.QuantitySum(ClientCart.Merge(items, CartItemFor(p, quantity))) ==
      ClientCart.QuantitySum(items) + quantity
    ensures ClientCart.AmountSum(ClientCart.Merge(items, CartItemFor(p, quantity))) ==
      ClientCart.AmountSum(items) + DisplayPrice(p.price, p.discount) * quantity as real
  {
    var x := CartItemFor(p, quantity);
    assert x.id == PublicId(p);
    ClientCart.MergeTotals(items, x);
  }
}
