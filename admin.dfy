/** The administrator's product creation: the random human-facing product id and the
    validation and defaults of a new product. */
module Admin {
  import opened Js
  import opened Records

  /** The 62 characters a product id is drawn from. */
  const Alphabet: string := "a1AbB2c3C4dDe5E6fFgGh7HiIjJk8KlLmMnNOoP9pQqRrSsTtUuVvWwXxYyZz0"

  const DefaultNameLength: nat := 15

  /** A value `Math.random()` can return. */
  predicate IsDraw(d: real) {
    0.0 <= d < 1.0
  }

  /** The character a draw `d` picks: the alphabet entry at index floor(d * 62). */
  function PickChar(d: real): (c: char)
    requires IsDraw(d)
    ensures c in Alphabet
  {
    var i := (d * 62.0).Floor;
    assert 0 <= i < 62;
    Alphabet[i]
  }

  /** `generateName(length)`, with the `length` successive random draws given as input. */
  method GenerateName(length: nat, draws: seq<real>) returns (name: string)
    requires |draws| >= length
    requires forall i :: 0 <= i < |draws| ==> IsDraw(draws[i])
    ensures |name| == length
    ensures forall i :: 0 <= i < length ==> name[i] == PickChar(draws[i])
    ensures forall i :: 0 <= i < length ==> name[i] in Alphabet
  {
    name := "";
    var i := 0;
    while i < length
      invariant 0 <= i <= length
      invariant |name| == i
      invariant forall j :: 0 <= j < i ==> name[j] == PickChar(draws[j])
    {
      name := name + [PickChar(draws[i])];
      i := i + 1;
    }
  }

  /** The request body; a missing field is None. */
  datatype ProductInput = ProductInput(
    productname: Option<string>,
    productdescription: Option<string>,
    price: Option<real>,
    discount: Option<real>,
    stock: Option<int>,
    category: Option<string>,
    images: Option<seq<string>>)

  predicate TextPresent(v: Option<string>) { v.Some? && v.value != "" }
  predicate NumberPresent(v: Option<real>) { v.Some? && v.value != 0.0 }

  /** The guard of the handler: every required field truthy (so a price or discount of 0 is
      missing), at least one image, discount at most 100, and a known category. The answer
      is None when the product may be created, else the status code. */
  function ValidateProduct(input: ProductInput, categories: set<string>): (r: Option<int>)
    ensures r.None? || r == Some(400)
    ensures r.None? <==>
      TextPresent(input.productname) && TextPresent(input.productdescription) &&
      NumberPresent(input.price) && NumberPresent(input.discount) && TextPresent(input.category) &&
      input.images.Some? && |input.images.value| > 0 &&
      input.discount.value <= 100.0 && input.category.value in categories
    ensures r.None? ==> Complete(input)
    ensures input.price == Some(0.0) || input.discount == Some(0.0) ==> r == Some(400)
  {
    if !TextPresent(input.productname) || !TextPresent(input.productdescription) || !NumberPresent(input.price)
       || !NumberPresent(input.discount) || !TextPresent(input.category) || input.images.None? || |input.images.value| == 0
    then Some(400)
    else if input.discount.value > 100.0 then Some(400)
    else if input.category.value !in categories then Some(400)
    else None
  }

  /** Every field but the stock is given. */
  predicate Complete(input: ProductInput) {
    input.productname.Some? && input.productdescription.Some? && input.price.Some? && input.discount.Some? &&
    input.category.Some? && input.images.Some?
  }

  /** The stored product: the given fields, stock defaulting to 0, available, rating and
      review at their schema defaults, and the generated id. */
  function NewProduct(input: ProductInput, code: string): (p: Product)
    requires Complete(input)
    ensures p.productid == code && p.isavailable
    ensures p.stock == (if input.stock.Some? then input.stock.value else 0)
    ensures p.price == input.price.value && p.discount == input.discount.value
    ensures p.productname == input.productname.value && p.productdescription == input.productdescription.value
    ensures p.category == input.category.value
    ensures p.images == input.images.value
    ensures p.rating == "0" && p.review == 0
  {
    Product(code, input.productname.value, input.productdescription.value, input.price.value, input.discount.value,
            input.images.value, input.category.value, "0", 0, true, if input.stock.Some? then input.stock.value else 0)
  }

  /** POST /product. An invalid body is 400; an id that collides with an existing
      `productid` breaks the unique index and is reported as 500; otherwise the product is
      stored under its new storage id. Failures change nothing, and ids stay unique. */
  method CreateProduct(products: Collection<Product>, categories: set<string>, input: ProductInput,
                       draws: seq<real>, newId: ObjectId)
    returns (status: int, code: Option<string>)
    requires |draws| >= DefaultNameLength
    requires forall i :: 0 <= i < |draws| ==> IsDraw(draws[i])
    requires newId !in products.records
    modifies products
    ensures ValidateProduct(input, categories).Some? ==> status == 400
    ensures status != 201 ==> code == None && products.records == old(products.records)
    ensures status == 201 ==>
      ValidateProduct(input, categories).None? && code.Some? && |code.value| == DefaultNameLength &&
      (forall i :: 0 <= i < DefaultNameLength ==> code.value[i] == PickChar(draws[i])) &&
      products.records == old(products.records)[newId := NewProduct(input, code.value)]
    ensures ValidateProduct(input, categories).None? && status != 201 ==>
      status == 500 && exists k :: k in old(products.records) && old(products.records)[k].productid == GeneratedCode(draws)
    ensures UniqueCodes(old(products.records)) ==> UniqueCodes(products.records)
  {
    var invalid := ValidateProduct(input, categories);
    if invalid.Some? {
      return invalid.value, None;
    }
    var name := GenerateName(DefaultNameLength, draws);
    assert name == GeneratedCode(draws);
    if exists k :: k in products.records && products.records[k].productid == name {
      return 500, None;
    }
    var product := NewProduct(input, name);
    products.records := products.records[newId := product];
    status, code := 201, Some(name);
  }

  /** The id the default-length generator draws. */
  function GeneratedCode(draws: seq<real>): (name: string)
    requires |draws| >= DefaultNameLength
    requires forall i :: 0 <= i < |draws| ==> IsDraw(draws[i])
    ensures |name| == DefaultNameLength
    ensures forall i :: 0 <= i < DefaultNameLength ==> name[i] in Alphabet
  {
    seq(DefaultNameLength, i requires 0 <= i < DefaultNameLength => PickChar(draws[i]))
  }
}
