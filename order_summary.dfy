/** The checkout page of a single product: the address check, the quantity stepper, the
    displayed discount and the three-step flow from summary to address to confirmation. */
module OrderSummary {
  import opened Js
  import opened Records
  import SingleOrder

  // ---------------------------------------------------------------------------
  // Address validity
  // ---------------------------------------------------------------------------

  /** The `address` field of the summary response: absent or falsy, a truthy value that is
      not an object, or an address object. */
  datatype AddressInput = NoAddress | NotObject | Given(address: Address)

  /** The field holds a character that is not whitespace. */
  predicate Filled(f: Option<string>) {
    f.Some? && !IsBlank(f.value)
  }

  /** `isValidAddress`: street, city, state and zip must each hold a non-whitespace
      character; the address type is not required. */
  function IsValidAddress(a: AddressInput): (ok: bool)
    ensures a.NoAddress? || a.NotObject? ==> !ok
    ensures ok ==> a.address.street.Some? && a.address.city.Some? && a.address.state.Some? && a.address.zip.Some?
  {
    a.Given? && Filled(a.address.street) && Filled(a.address.city) && Filled(a.address.state) &&
    Filled(a.address.zip)
  }

  /** The source's test of one field: present, a non-empty string, and still non-empty
      after `trim()`. */
  predicate TrimmedNonEmpty(f: Option<string>) {
    f.Some? && f.value != "" && Trim(f.value) != ""
  }

  /** The check is the source's test, field by field: an address object whose street, city,
      state and zip are each non-empty after trimming. */
  lemma {:induction false} AddressCheckIsTrimTest(a: AddressInput)
    ensures IsValidAddress(a) <==>
      a.Given? && TrimmedNonEmpty(a.address.street) && TrimmedNonEmpty(a.address.city) &&
      TrimmedNonEmpty(a.address.state) && TrimmedNonEmpty(a.address.zip)
  {
    if a.Given? {
      FilledIsTrimTest(a.address.street);
      FilledIsTrimTest(a.address.city);
      FilledIsTrimTest(a.address.state);
      FilledIsTrimTest(a.address.zip);
    }
  }

  lemma FilledIsTrimTest(f: Option<string>)
    ensures Filled(f) <==> TrimmedNonEmpty(f)
  {
    if f.Some? && f.value == "" {
      assert IsBlank(f.value);
    }
  }

  /** The address type plays no part in validity. */
  lemma TypeNotRequired(a: Address, kind: Option<string>)
    ensures IsValidAddress(Given(a.(kind := kind))) == IsValidAddress(Given(a))
  {
  }

  /** A field holding only spaces fails the check, even though it is a truthy string. */
  lemma SpacesAreNotAnAddress(a: Address)
    requires a.zip == Some("  ")
    ensures !IsValidAddress(Given(a))
  {
    assert IsBlank("  ");
  }

  // ---------------------------------------------------------------------------
  // Quantity and price
  // ---------------------------------------------------------------------------

  /** The quantity updater: below 1 it becomes 1; above the product's stock (when the
      summary is loaded) it becomes the stock; otherwise the sum. */
  function QuantityUpdate(prev: int, change: int, stock: Option<int>): (q: int)
    ensures prev + change < 1 ==> q == 1
    ensures prev + change >= 1 && stock.Some? ==>
      (q <= stock.value && q <= prev + change && (q == prev + change || q == stock.value))
    ensures prev + change >= 1 && stock.None? ==> q == prev + change
  {
    var next := prev + change;
    if next < 1 then 1
    else if stock.Some? && next > stock.value then stock.value
    else next
  }

  /** A stepper kept within [1, stock] stays there: one step up or down from a quantity in
      range lands in range. */
  lemma {:induction false} QuantityStaysInRange(prev: int, change: int, stock: int)
    requires 1 <= prev <= stock
    requires change == 1 || change == -1
    ensures 1 <= QuantityUpdate(prev, change, Some(stock)) <= stock
    ensures QuantityUpdate(prev, change, Some(stock)) == if change == 1 then Min(prev + 1, stock) else Max(prev - 1, 1)
  {
  }

  /** With nothing in stock, incrementing from 1 gives 0: the upper clamp wins over the
      lower one. */
  lemma OutOfStockIncrement()
    ensures QuantityUpdate(1, 1, Some(0)) == 0
  {
  }

  function Min(a: int, b: int): int { if a <= b then a else b }
  function Max(a: int, b: int): int { if a >= b then a else b }

  /** `calculateDiscountedPrice`: the percentage discount when it is positive, else the
      list price. */
  function SummaryPrice(price: real, discount: real): (r: real)
    ensures discount <= 0.0 ==> r == price
    ensures discount > 0.0 ==> r == price * (100.0 - discount) / 100.0
  {
    if discount > 0.0 then price - price * discount / 100.0 else price
  }

  /** For any discount that is not negative the page shows the unit price the purchase
      handler charges. */
  lemma SummaryPriceAgreesWithPurchase(price: real, discount: real)
    requires discount >= 0.0
    ensures SummaryPrice(price, discount) == SingleOrder.PercentPrice(price, discount)
  {
  }

  /** A negative discount is ignored here but raises the price the purchase handler
      charges. */
  lemma NegativeDiscountDisagrees()
    ensures SummaryPrice(100.0, -10.0) == 100.0
    ensures SingleOrder.PercentPrice(100.0, -10.0) == 110.0
  {
  }

  // ---------------------------------------------------------------------------
  // The checkout page state
  // ---------------------------------------------------------------------------

  /** The product fields the page uses. */
  datatype ProductView = ProductView(price: real, discount: real, stock: int)

  /** The loaded summary: the product and the list of usable addresses. */
  datatype Summary = Summary(product: ProductView, addresses: seq<AddressInput>)

  /** The summary request's outcome: an HTTP failure with the server's message if any, or
      the response body's product (None when falsy) and address. */
  datatype SummaryReply = HttpFailure(message: Option<string>) | Reply(product: Option<ProductView>, address: AddressInput)

  /** The order request's outcome: a response whose `success` flag is given, or a rejected
      request with its error message. */
  datatype PlaceReply = Answered(success: bool) | Rejected(message: string)

  /** The body posted to place the order. */
  datatype OrderPayload = OrderPayload(productId: string, quantity: int, address: AddressInput,
                                       paymentMethod: string, totalAmount: real)

  /** The order body for `quantity` of `product` delivered to `address`: cash on delivery,
      totalling the displayed unit price times the quantity. */
  function PayloadFor(productId: string, quantity: int, address: AddressInput, product: ProductView): (p: OrderPayload)
    ensures p.productId == productId && p.quantity == quantity && p.address == address
    ensures p.paymentMethod == "cod"
    ensures p.totalAmount == SummaryPrice(product.price, product.discount) * quantity as real
  {
    OrderPayload(productId, quantity, address, "cod", SummaryPrice(product.price, product.discount) * quantity as real)
  }

  const LoadFailed: string := "Failed to load order summary"
  const PlaceFailed: string := "Failed to place order"

  /** The error shown when loading fails: the server's message when it sent a non-empty
      one, else the generic text. */
  function LoadError(r: SummaryReply): (e: string)
    ensures e != ""
    ensures r.HttpFailure? && r.message.Some? && r.message.value != "" ==> e == r.message.value
    ensures r.Reply? ==> e == LoadFailed
  {
    if r.HttpFailure? && r.message.Some? && r.message.value != "" then r.message.value else LoadFailed
  }

  /** The page's state: the current step, the loaded summary, the selected address, the
      quantity, whether the loaded address was valid, and the loading and error flags. */
  class Checkout {
    const productId: string
    var step: int
    var summary: Option<Summary>
    var selected: Option<AddressInput>
    var quantity: int
    var addressValid: bool
    var loading: bool
    var error: Option<string>

    /** The step is one of the three; `addressValid` holds exactly when a loaded summary
        lists an address; every listed or selected address is valid; an address is only
        selected once a summary is loaded. */
    ghost predicate Valid()
      reads this
    {
      && 1 <= step <= 3
      && (addressValid <==> summary.Some? && summary.value.addresses != [])
      && (summary.Some? ==>
            (|summary.value.addresses| <= 1 &&
             forall i :: 0 <= i < |summary.value.addresses| ==> IsValidAddress(summary.value.addresses[i])))
      && (selected.Some? ==> summary.Some? && IsValidAddress(selected.value))
    }

    /** The page opens on step 1 with quantity 1, loading, nothing selected. */
    constructor (productId: string)
      ensures Valid()
      ensures this.productId == productId
      ensures step == 1 && quantity == 1 && loading && !addressValid
      ensures summary == None && selected == None && error == None
    {
      this.productId := productId;
      step := 1;
      summary := None;
      selected := None;
      quantity := 1;
      addressValid := false;
      loading := true;
      error := None;
    }

    /** Opening the page: a visitor who is not signed in is sent to the login page and
        nothing is fetched. Otherwise the summary reply is taken in: a failure or a reply
        without a product records the error; a valid address becomes the one listed and
        selected; an invalid one leaves the list empty and the selection as it was. */
    method Load(authenticated: bool, reply: SummaryReply) returns (toLogin: bool)
      requires Valid()
      modifies this
      ensures Valid()
      ensures toLogin <==> !authenticated
      ensures step == old(step) && quantity == old(quantity)
      ensures !authenticated ==>
        summary == old(summary) && selected == old(selected) && addressValid == old(addressValid) &&
        loading == old(loading) && error == old(error)
      ensures authenticated ==> !loading
      ensures authenticated && (reply.HttpFailure? || reply.product.None?) ==>
        error == Some(LoadError(reply)) && summary == old(summary) && selected == old(selected) &&
        addressValid == old(addressValid)
      ensures authenticated && reply.Reply? && reply.product.Some? && !IsValidAddress(reply.address) ==>
        error == old(error) && !addressValid && summary == Some(Summary(reply.product.value, [])) &&
        selected == old(selected)
      ensures authenticated && reply.Reply? && reply.product.Some? && IsValidAddress(reply.address) ==>
        error == old(error) && addressValid && summary == Some(Summary(reply.product.value, [reply.address])) &&
        selected == Some(reply.address)
    {
      if !authenticated {
        return true;
      }
      toLogin := false;
      loading := true;
      if reply.HttpFailure? || reply.product.None? {
        error := Some(LoadError(reply));
      } else if !IsValidAddress(reply.address) {
        addressValid := false;
        summary := Some(Summary(reply.product.value, []));
      } else {
        addressValid := true;
        summary := Some(Summary(reply.product.value, [reply.address]));
        selected := Some(reply.address);
      }
      loading := false;
    }

    /** `handleQuantityChange`: the quantity moves by `change`, clamped by the updater
        against the loaded product's stock. */
    method ChangeQuantity(change: int)
      requires Valid()
      modifies this
      ensures Valid()
      ensures quantity == QuantityUpdate(old(quantity), change,
                                         if summary.Some? then Some(summary.value.product.stock) else None)
      ensures step == old(step) && summary == old(summary) && selected == old(selected)
      ensures addressValid == old(addressValid) && loading == old(loading) && error == old(error)
    {
      quantity := QuantityUpdate(quantity, change, if summary.Some? then Some(summary.value.product.stock) else None);
    }

    /** `handleContinueToAddress`: with a loaded summary that lists a valid address the page
        moves to step 2; without one the visitor is sent to the profile page and nothing
        changes. Before any summary is loaded the handler throws and nothing changes. */
    method ContinueToAddress() returns (toProfile: bool)
      requires Valid()
      modifies this
      ensures Valid()
      ensures step == 2 <==> addressValid || old(step) == 2
      ensures addressValid ==> step == 2 && !toProfile
      ensures !addressValid ==> step == old(step) && toProfile == summary.Some?
      ensures summary == old(summary) && selected == old(selected) && quantity == old(quantity)
      ensures addressValid == old(addressValid) && loading == old(loading) && error == old(error)
    {
      if summary.None? {
        return false;
      }
      if summary.value.addresses == [] || !addressValid {
        return true;
      }
      step := 2;
      toProfile := false;
    }

    /** Clicking one of the listed addresses on step 2 selects it. */
    method SelectAddress(i: int)
      requires Valid()
      requires summary.Some? && 0 <= i < |summary.value.addresses|
      modifies this
      ensures Valid()
      ensures selected == Some(old(summary).value.addresses[i]) && IsValidAddress(selected.value)
      ensures step == old(step) && summary == old(summary) && quantity == old(quantity)
      ensures addressValid == old(addressValid) && loading == old(loading) && error == old(error)
    {
      selected := Some(summary.value.addresses[i]);
    }

    /** The Back button of step 2 returns to the product step; the selection, the
        quantity and the loaded summary are kept. */
    method Back()
      requires Valid()
      modifies this
      ensures Valid()
      ensures step == 1
      ensures summary == old(summary) && selected == old(selected) && quantity == old(quantity)
      ensures addressValid == old(addressValid) && loading == old(loading) && error == old(error)
    {
      step := 1;
    }

    /** `placeOrder`. Without a valid selected address nothing is sent and the visitor is
        sent to the profile page. Otherwise the order is posted cash on delivery for the
        quantity at the displayed unit price; a successful reply moves to step 3 and any
        other outcome records the error. */
    method PlaceOrder(reply: PlaceReply) returns (sent: Option<OrderPayload>, toProfile: bool)
      requires Valid()
      modifies this
      ensures Valid()
      ensures sent.Some? <==> old(selected).Some? && IsValidAddress(old(selected).value)
      ensures toProfile <==> sent.None?
      ensures sent.Some? ==> sent.value == PayloadFor(productId, old(quantity), old(selected).value, old(summary).value.product)
      ensures step == 3 <==> old(step) == 3 || (sent.Some? && reply == Answered(true))
      ensures step != 3 ==> step == old(step)
      ensures sent.Some? && reply == Answered(false) ==> error == Some(PlaceFailed)
      ensures sent.Some? && reply.Rejected? ==> error == Some(reply.message)
      ensures sent.None? || reply == Answered(true) ==> error == old(error)
      ensures summary == old(summary) && selected == old(selected) && quantity == old(quantity)
      ensures addressValid == old(addressValid) && loading == old(loading)
    {
      if selected.None? || !IsValidAddress(selected.value) {
        return None, true;
      }
      sent := Some(PayloadFor(productId, quantity, selected.value, summary.value.product));
      toProfile := false;
      match reply
      case Answered(success) =>
        if success {
          step := 3;
        } else {
          error := Some(PlaceFailed);
        }
      case Rejected(message) =>
        error := Some(message);
    }
  }

  /** The flow in one go: a fresh page that loads a valid address, continues and places the
      order successfully ends on step 3 having posted that address. */
  method HappyPath(productId: string, product: ProductView, address: AddressInput)
    returns (step: int, sent: Option<OrderPayload>)
    requires IsValidAddress(address)
    ensures step == 3
    ensures sent == Some(PayloadFor(productId, 1, address, product))
  {
    var page := new Checkout(productId);
    var toLogin := page.Load(true, Reply(Some(product), address));
    var toProfile := page.ContinueToAddress();
    assert page.step == 2;
    sent, toProfile := page.PlaceOrder(Answered(true));
    step := page.step;
  }
}
