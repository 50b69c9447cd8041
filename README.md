# snapbasket storefront rules in Dafny

This project models the business rules of the snapbasket storefront. The storefront has a Node/Express/Mongoose back end and a React front end. The model covers:

- **Catalogue query builder** (`getProducts`, `getProductById`). Loosely typed query-string values become a match filter, a sort object, a projection and a page window. The model produces the builder's output as a datatype. It does not model how MongoDB evaluates that output.
- **Server cart** (`getCart`, `addToCart`, `removeFromCart`, `checkoutCart`). The cart keeps one record per user, and its `totalAmount` stays equal to the sum of quantity × price over its lines.
- **Single-item purchase** (`placeSingleOrder`). It checks stock, prices the item with a percentage discount, lowers stock by exactly the quantity bought and clears the availability flag when stock runs out.
- **Customer orders** (`getMyOrders`, `getOrderDetails`, `cancelOrder`):
  - ownership checks;
  - the eight-character display id;
  - the cancel transition, allowed only from `pending` or `confirmed`, which puts the stock back.
- **Admin product creation.** The required-field validation, the category check, the defaults, and the random 15-character product code. The random draws are an input.
- **Refresh-session state.** Login stores the newest refresh token on the user. A refresh succeeds only with the stored token. Logout writes a differently spelled field (see "## Findings").
- **Client cart store** (the `cartSlice` reducer). It is a class whose invariant is that both totals match the items and no id appears twice.
- **Page helpers.** Address validity, the quantity stepper, the three-step checkout and the discount displays on the checkout and product pages. Status labels, colours and cancel eligibility on the two order pages. The category-response normaliser and the section slicing on the home page.

The Mongo collections are `Records.Collection` objects: a class holding a `map` from storage id to record. Each handler is a method that returns its HTTP status, modifies the collections it writes, and states the new contents of those collections. Pure helpers are functions.

The three page components are classes whose fields are the React state the handlers set:

- `Checkout` for the checkout page.
- `ProductPage` for the product page.
- `OrdersPage`, `OrderDetailsPage` and `HomePage` for the order pages and the home page.

The JavaScript built-ins the rules depend on are in module `Js`: `String.prototype.trim`, ASCII `toLowerCase`/`toUpperCase`, `split`/`join` on one character, and `Number()` on decimal strings.

Money is `real` and quantities and stock are `int`. Storage ids are strings, and a valid ObjectId is 24 hexadecimal digits.

`calculateDiscountedPrice` in `frontend/src/pages/Home.jsx:94-99` is character-for-character the product page's helper, so `ProductDetail.DisplayPrice` models both.

## Model

| member | source | states |
|---|---|---|
| Js.Trim | backend/src/Controllers/Product/slice/getProduct.controller.js:26 | The result is the input with leading and trailing white space removed. It is empty exactly when the input is blank, and otherwise starts and ends with a non-space character. |
| Js.TrimIdempotent | backend/src/Controllers/Product/slice/getProduct.controller.js:75 | Trimming a trimmed string changes nothing. |
| Js.ToLower | backend/src/Controllers/Product/slice/getProduct.controller.js:18 | Has the same length, with each character mapped to lower case. |
| Js.ToLowerIdempotent | backend/src/Controllers/Product/slice/getProduct.controller.js:18 | Lower-casing twice is lower-casing once. |
| Js.ToUpper | backend/src/Controllers/Product/slice/getOrderDetails.controller.js:16 | Has the same length, with each character mapped to upper case. |
| Js.Split | backend/src/Controllers/Product/slice/getProduct.controller.js:75 | Gives at least one piece, and no piece contains the separator. |
| Js.JoinSplit | backend/src/Controllers/Product/slice/getProduct.controller.js:119 | Joining the pieces of a split gives back the original string. |
| Js.SplitJoin | backend/src/Controllers/Product/slice/getProduct.controller.js:119 | Splitting a join of separator-free pieces gives back the pieces. |
| Js.StringToNumber | backend/src/Controllers/Product/slice/getProduct.controller.js:11 | A blank string converts to 0. |
| Js.NumberOfDecimal | backend/src/Controllers/Product/slice/getProduct.controller.js:11 | `Number()` of the decimal numeral of n is n. |
| Js.DigitsOfDecimal | backend/src/Controllers/Product/slice/getProduct.controller.js:11 | The digits written for n read back as n. |
| Js.NatToDecimal | backend/src/Controllers/Product/slice/getProduct.controller.js:11 | A natural number is written as a non-empty string of digits. |
| Records.IsValidObjectId | backend/src/Controllers/Product/slice/getOrderDetails.controller.js:54 | An id string is valid exactly when it has 24 characters, each a hexadecimal digit in either case. This decides the 400 of the order-details and cancel handlers and the `findById` fallback at backend/src/Controllers/Product/slice/getProduct.controller.js:261. |
| Records.ValidObjectIdUpperCase | backend/src/Controllers/Product/slice/getOrderDetails.controller.js:119 | Upper-casing a valid id keeps it valid. |
| Records.CanonicalId | backend/src/Controllers/Product/slice/getOrderDetails.controller.js:61 | The lookup key has the length of the string. The key of a valid ObjectId is again a valid ObjectId, with no upper-case letters. |
| Records.CanonicalIdIgnoresCase | backend/src/Controllers/Product/slice/getOrderDetails.controller.js:61 | An id in upper case looks up the same key as the id itself, so the case of the hex digits does not matter. |
| Records.LinesTotal | backend/src/Controllers/Product/slice/cart.controller.js:32 | An empty cart totals 0. One line totals its quantity × price. |
| Records.Cancellable | backend/src/Controllers/Product/slice/getOrderDetails.controller.js:142 | A status can be cancelled exactly when it is not shipped, delivered or cancelled. |
| Records.UniqueCodes | backend/src/Models/product.model.js:4-8 | The `unique: true` index on `productid`: no two stored products share a code. An empty catalogue satisfies it. |
| Records.UniqueCodesInsert | backend/src/Models/product.model.js:4-8 | Adding a product under a new key keeps the codes unique exactly when no stored product already has its code. |
| Records.FindByCode | backend/src/Controllers/Product/slice/cart.controller.js:15 | In a catalogue with unique codes, `findOne({productid})` finds the product with that code. It gives None exactly when no product has it. |
| Records.LinesTotalAppend | backend/src/Controllers/Product/slice/cart.controller.js:32 | The total of concatenated line lists is the sum of their totals. |
| Records.LinesTotalUpdate | backend/src/Controllers/Product/slice/cart.controller.js:32 | Replacing one line moves the total by the difference of the two lines' amounts. |
| Records.Collection.constructor | backend/src/Models/product.model.js:3-46 | A collection starts with exactly the given records. |
| CatalogQuery.ParseNumber | backend/src/Controllers/Product/slice/getProduct.controller.js:9-13 | Undefined, null, "" or a value whose `Number()` is NaN gives the default. Any other value gives its number. |
| CatalogQuery.ParseNumberOfNumeral | backend/src/Controllers/Product/slice/getProduct.controller.js:9-13 | A decimal numeral parses to its value, whatever the default. |
| CatalogQuery.ParseNumberOfBlank | backend/src/Controllers/Product/slice/getProduct.controller.js:10-11 | A non-empty string of spaces is not "", so it parses to 0 and not to the default. |
| CatalogQuery.ParseBoolean | backend/src/Controllers/Product/slice/getProduct.controller.js:15-22 | Undefined gives none and a boolean is itself. For any other value: true exactly for true/1/yes/y, false exactly for false/0/no/n, otherwise none. |
| CatalogQuery.ParseBooleanIgnoresCase | backend/src/Controllers/Product/slice/getProduct.controller.js:18 | Upper and lower case parse alike. |
| CatalogQuery.StripOperators | backend/src/Controllers/Product/slice/getProduct.controller.js:26 | Removes every '.' and '$' and keeps every other character. A one-character string becomes empty exactly when it is '.' or '$', and otherwise stays as it is. |
| CatalogQuery.StripOperatorsAppend | backend/src/Controllers/Product/slice/getProduct.controller.js:26 | Stripping a concatenation is the concatenation of the two stripped parts. |
| CatalogQuery.StripOperatorsCounts | backend/src/Controllers/Product/slice/getProduct.controller.js:26 | Every character other than '.' and '$' occurs in the result as often as in the input. '.' and '$' do not occur. |
| CatalogQuery.StripOperatorsKeepsPlain | backend/src/Controllers/Product/slice/getProduct.controller.js:26 | A string without '.' or '$' is unchanged. |
| CatalogQuery.Sanitize | backend/src/Controllers/Product/slice/getProduct.controller.js:24-27 | A non-string gives "". The result never contains '.' or '$' and is no longer than the input. |
| CatalogQuery.SanitizeKeepsPlain | backend/src/Controllers/Product/slice/getProduct.controller.js:24-27 | A trimmed string without '.' or '$' is unchanged. |
| CatalogQuery.SanitizeCanExposeSpace | backend/src/Controllers/Product/slice/getProduct.controller.js:26 | Stripping runs after trimming, so "$ x" sanitizes to " x", which starts with a space. |
| CatalogQuery.TextSearch | backend/src/Controllers/Product/slice/getProduct.controller.js:103-114 | A falsy or non-string `q` gives no condition. There is a condition exactly when `q` is truthy and sanitizes to a non-empty string, and it carries that sanitized text. |
| CatalogQuery.CleanPieces | backend/src/Controllers/Product/slice/getProduct.controller.js:119-121 | Keeps only non-empty pieces, each free of '.' and '$'. A single piece gives nothing exactly when it sanitizes to "", and otherwise gives the sanitized piece. |
| CatalogQuery.CleanPiecesAppend | backend/src/Controllers/Product/slice/getProduct.controller.js:119-121 | Cleaning a concatenation of piece lists is the concatenation of the two cleaned lists. |
| CatalogQuery.NonEmpty | backend/src/Controllers/Product/slice/getProduct.controller.js:121 | The kept strings are exactly the non-empty members of the list. |
| CatalogQuery.CleanPiecesIsMapFilter | backend/src/Controllers/Product/slice/getProduct.controller.js:119-121 | Cleaning is sanitizing each piece and then dropping the empty ones. A string is kept exactly when it is non-empty and some piece sanitizes to it. |
| CatalogQuery.CleanPiecesKeepsClean | backend/src/Controllers/Product/slice/getProduct.controller.js:119-121 | Pieces that are already clean survive unchanged and in order. |
| CatalogQuery.CategoryCondition | backend/src/Controllers/Product/slice/getProduct.controller.js:116-124 | A falsy parameter gives no condition. For a truthy one there is a condition exactly when the cleaned comma-separated pieces are non-empty, and it lists exactly those pieces, each non-empty and free of '.' and '$'. |
| CatalogQuery.CategoryConditionDropsEmptyPieces | backend/src/Controllers/Product/slice/getProduct.controller.js:116-124 | `a.,,b$` gives the categories a and b: the empty middle piece is dropped and the operators are stripped. |
| CatalogQuery.CategoryListRoundTrip | backend/src/Controllers/Product/slice/getProduct.controller.js:116-124 | A comma-joined list of clean categories yields exactly that list. |
| CatalogQuery.RangeOf | backend/src/Controllers/Product/slice/getProduct.controller.js:29-69 | The result is null exactly when no bound parsed. `lt`/`gt` come from their keys. `lte`/`gte` override max/min when present and fall back to them otherwise. |
| CatalogQuery.BuildRangeConditions | backend/src/Controllers/Product/slice/getProduct.controller.js:29-48 | The key-by-key assignments build the range RangeOf describes. |
| CatalogQuery.BuildMatchConditions | backend/src/Controllers/Product/slice/getProduct.controller.js:126-188 | The conditional assignments build the filter MatchOf describes. |
| CatalogQuery.MatchOf | backend/src/Controllers/Product/slice/getProduct.controller.js:126-188 | The missing-or-empty images alternative is set exactly when `hasImages` parses to false. It never comes together with the images-present condition. A category condition needs a truthy category parameter. |
| CatalogQuery.ReviewRange | backend/src/Controllers/Product/slice/getProduct.controller.js:149-155 | A review range exists exactly when `minReview` or `maxReview` parsed. Its `$gte` is `minReview` and its `$lte` is `maxReview`, with no strict bounds. |
| CatalogQuery.RatingFilterOf | backend/src/Controllers/Product/slice/getProduct.controller.js:173-185 | A rating expression exists exactly when `minRating` or `maxRating` parsed. |
| CatalogQuery.RatingFilterMeaning | backend/src/Controllers/Product/slice/getProduct.controller.js:173-185 | The expression admits exactly the ratings at or above `minRating` and at or below `maxRating`, for whichever bounds parsed. |
| CatalogQuery.HasImagesAndSearch | backend/src/Controllers/Product/slice/getProduct.controller.js:129-132 | `hasImages=false` makes `$or` the no-images clause, overwriting a text search. Otherwise `$or` is the text search. The images-present condition is set exactly for `hasImages=true`. |
| CatalogQuery.InStockFilter | backend/src/Controllers/Product/slice/getProduct.controller.js:157-159 | `inStock` true gives stock > 0, false gives stock <= 0, and anything else gives no stock filter. Each direction is an if-and-only-if. |
| CatalogQuery.EmptyQueryFiltersNothing | backend/src/Controllers/Product/slice/getProduct.controller.js:126-188 | An empty query gives an empty filter, so no `$match` stage. |
| CatalogQuery.Keys | backend/src/Controllers/Product/slice/getProduct.controller.js:84 | An object has one key per entry, in insertion order. |
| CatalogQuery.ValueAt | backend/src/Controllers/Product/slice/getProduct.controller.js:80 | A key has no value exactly when it is not among the keys. |
| CatalogQuery.Assign | backend/src/Controllers/Product/slice/getProduct.controller.js:80 | Assigning a key keeps the key order, or appends the key when it is new. The key takes the value and every other key keeps its value. |
| CatalogQuery.AssignDistinct | backend/src/Controllers/Product/slice/getProduct.controller.js:80 | Assignment never duplicates a key. |
| CatalogQuery.TrimmedPieces | backend/src/Controllers/Product/slice/getProduct.controller.js:75 | The trimmed, filtered pieces are all non-empty. |
| CatalogQuery.BuildSortObject | backend/src/Controllers/Product/slice/getProduct.controller.js:71-85 | The loop over the pieces builds the sort object SortOf describes. |
| CatalogQuery.SortOf | backend/src/Controllers/Product/slice/getProduct.controller.js:71-85 | The sort object is never empty, and a falsy `sort` gives newest first. |
| CatalogQuery.SortFoldMeaning | backend/src/Controllers/Product/slice/getProduct.controller.js:77-82 | The folded sort has distinct keys, all allow-listed. Each allowed field has the direction of its last piece: -1 for a leading '-', otherwise 1. |
| CatalogQuery.SortFoldEmpty | backend/src/Controllers/Product/slice/getProduct.controller.js:84 | The fold is empty exactly when no piece names an allowed field. |
| CatalogQuery.SortFallsBackToNewestFirst | backend/src/Controllers/Product/slice/getProduct.controller.js:73-84 | A falsy sort, or one with no valid field, gives `{createdAt: -1}`. |
| CatalogQuery.BuildProjection | backend/src/Controllers/Product/slice/getProduct.controller.js:87-101 | The loop builds the projection ProjectionOf describes. |
| CatalogQuery.ProjectionOf | backend/src/Controllers/Product/slice/getProduct.controller.js:87-101 | A falsy `fields` hides only `_id`. A truthy one always includes `productid`. |
| CatalogQuery.ProjectionFoldMeaning | backend/src/Controllers/Product/slice/getProduct.controller.js:88-97 | Folded fields start with `_id: 0`. Every other key is an allow-listed, listed field mapped to 1, and `productid` is not yet among them. |
| CatalogQuery.ProjectionMeaning | backend/src/Controllers/Product/slice/getProduct.controller.js:87-101 | `_id` is 0. There is more than one key exactly when `fields` is truthy, and then `productid` is 1. Other keys are exactly the listed allow-listed fields. |
| CatalogQuery.PageOf | backend/src/Controllers/Product/slice/getProduct.controller.js:192 | The page is the parsed number (default 1) when that is at least 1, and 1 otherwise. |
| CatalogQuery.PageOfNumeral | backend/src/Controllers/Product/slice/getProduct.controller.js:192 | A page of decimal n gives n, and 0 gives 1. |
| CatalogQuery.LimitOf | backend/src/Controllers/Product/slice/getProduct.controller.js:193 | The limit is the parsed number (default 20) clamped to [1, 100]. |
| CatalogQuery.LimitOfNumeral | backend/src/Controllers/Product/slice/getProduct.controller.js:193 | A limit of decimal n gives n inside [1, 100], 1 for 0 and 100 above 100. |
| CatalogQuery.SkipOf | backend/src/Controllers/Product/slice/getProduct.controller.js:194 | The skip, (page − 1) × limit, is never negative. |
| CatalogQuery.Ceil | backend/src/Controllers/Product/slice/getProduct.controller.js:232 | `Math.ceil` of a non-negative x is the least integer at or above x. |
| CatalogQuery.TotalPages | backend/src/Controllers/Product/slice/getProduct.controller.js:232 | The pages cover the total, and one page fewer would not. There are no pages exactly when there are no products. |
| CatalogQuery.CeilScaled | backend/src/Controllers/Product/slice/getProduct.controller.js:232 | Scaling the ceiling back by the limit brackets the total. |
| CatalogQuery.BuildPipeline | backend/src/Controllers/Product/slice/getProduct.controller.js:190-225 | The page, the limit and the pipeline are exactly the ones the query's parameters determine: its filter, sort, projection and page window. |
| CatalogQuery.PipelineShape | backend/src/Controllers/Product/slice/getProduct.controller.js:190-225 | A `$match` comes first exactly when some filter is set, then the sort, the facet and the metadata flattening. The facet skips a non-negative count, takes 1 to 100 items, and projects exactly when fields were asked for. |
| CatalogQuery.Pipeline | backend/src/Controllers/Product/slice/getProduct.controller.js:200-225 | A `$match` on the filter comes first exactly when the filter is not empty, then the sort, the facet and the metadata flattening, in that order. |
| CatalogQuery.PipelineOf | backend/src/Controllers/Product/slice/getProduct.controller.js:190-225 | Four stages when the query sets a filter and three otherwise. It ends with the sort the `sort` parameter gives, a facet and the metadata flattening. |
| CatalogQuery.EmptyQueryPipeline | backend/src/Controllers/Product/slice/getProduct.controller.js:190-225 | An empty query gives no `$match`, newest first, a skip of 0, a limit of 20 and no projection. |
| CatalogQuery.GetProductById | backend/src/Controllers/Product/slice/getProduct.controller.js:252-278 | An id that sanitizes to "" gives exactly 400. The `productid` match wins. A valid ObjectId is looked up only after that misses. 404 exactly when both miss. |
| ServerCart.IndexOfLine | backend/src/Controllers/Product/slice/cart.controller.js:25 | `find` returns the first line for the product, or the length when there is none. |
| ServerCart.FindLine | backend/src/Controllers/Product/slice/cart.controller.js:25 | The search loop returns the index IndexOfLine names. |
| ServerCart.IndexOfLineIsFirst | backend/src/Controllers/Product/slice/cart.controller.js:25 | Any index with the first-match property is IndexOfLine. |
| ServerCart.SumLines | backend/src/Controllers/Product/slice/cart.controller.js:32 | The `reduce` loop yields the sum of quantity × price. |
| ServerCart.FilterLines | backend/src/Controllers/Product/slice/cart.controller.js:51 | The filter loop keeps exactly the lines WithoutProduct keeps. |
| ServerCart.AddLineTotal | backend/src/Controllers/Product/slice/cart.controller.js:25-32 | Adding to an existing line raises the total by quantity × that line's stored price. A new line raises it by quantity × the new price. |
| ServerCart.AddToExistingTotal | backend/src/Controllers/Product/slice/cart.controller.js:27 | Increasing one line's quantity raises the total by the added amount. |
| ServerCart.AppendLineTotal | backend/src/Controllers/Product/slice/cart.controller.js:29 | Pushing a line raises the total by its amount. |
| ServerCart.AddLineUnique | backend/src/Controllers/Product/slice/cart.controller.js:25-30 | Adding keeps one line per product, and the cart grows by one line only for a new product. |
| ServerCart.AddLine | backend/src/Controllers/Product/slice/cart.controller.js:25-30 | Adding grows the cart by at most one line. |
| ServerCart.AddLineMeaning | backend/src/Controllers/Product/slice/cart.controller.js:25-30 | A product already in the cart keeps its line, which gains the quantity and keeps its captured price, and the cart keeps its length. A new product is appended as one line at the given price. |
| ServerCart.AddLineKeepsOthers | backend/src/Controllers/Product/slice/cart.controller.js:25-30 | Lines for other products are unchanged. |
| ServerCart.WithoutProduct | backend/src/Controllers/Product/slice/cart.controller.js:51 | No line of the product remains, and the cart does not grow. |
| ServerCart.CartPrice | backend/src/Controllers/Product/slice/cart.controller.js:20 | A zero discount charges the list price. The price stays at or below the list price exactly when the discount is non-negative. |
| ServerCart.WithoutProductMembers | backend/src/Controllers/Product/slice/cart.controller.js:51 | Removal keeps exactly the lines for other products. The complementary selection holds exactly that product's lines. |
| ServerCart.WithoutAbsentProduct | backend/src/Controllers/Product/slice/cart.controller.js:51 | Removing a product the cart does not hold leaves it unchanged. |
| ServerCart.WithoutProductTotal | backend/src/Controllers/Product/slice/cart.controller.js:51-52 | The old total splits into the kept lines' total and the removed lines' total. |
| ServerCart.GetCart | backend/src/Controllers/Product/slice/cart.controller.js:5-10 | `{items: []}` is returned exactly when the user has no cart. Otherwise the stored cart is returned. |
| ServerCart.CartAndPurchasePricesDiffer | backend/src/Controllers/Product/slice/cart.controller.js:20 | The cart's flat price equals the purchase handler's percentage price exactly when the discount is 0 or the price is 100. |
| ServerCart.AddToCart | backend/src/Controllers/Product/slice/cart.controller.js:12-41 | An unknown code gives 404 with the carts unchanged. Otherwise the user's cart, created when missing, holds the merged lines, and its total is their sum. Only that cart changes. |
| ServerCart.RemoveFromCart | backend/src/Controllers/Product/slice/cart.controller.js:43-55 | An unknown product or a missing cart gives 404 and no change. Otherwise the product's lines are dropped, the total is recomputed, and nothing else changes. |
| ServerCart.CheckoutOrder | backend/src/Controllers/Product/slice/cart.controller.js:61-75 | The order copies the cart's lines and total and the given address. Method COD; status and payment status pending; discount 0; no coupon. |
| ServerCart.CheckoutCart | backend/src/Controllers/Product/slice/cart.controller.js:57-81 | A missing or empty cart gives 400 and no change. Otherwise 201: the order is stored under the new id, which no stored order had, so the order count grows by one; every earlier order survives unchanged, the cart is deleted, and no other record changes. |
| SingleOrder.PercentPrice | backend/src/Controllers/Product/slice/buyProduct.controller.js:26 | A discount of 0 charges the list price and 100 charges nothing. Within [0, 100] the unit price lies between 0 and the list price. |
| SingleOrder.ShippingSnapshot | backend/src/Controllers/Product/slice/buyProduct.controller.js:31-39 | The snapshot copies name, email, street, city and state. The pincode is absent because the user schema names it zip. The phone is "NA". |
| SingleOrder.StoredPaymentMethod | backend/src/Controllers/Product/slice/buyProduct.controller.js:51 | The stored method is the lower-cased input, or "cod" when that is empty. |
| SingleOrder.PaymentStatusOf | backend/src/Controllers/Product/slice/buyProduct.controller.js:52 | Payment is pending exactly when the raw method is "cod". Every other method is completed. |
| SingleOrder.UpperCaseCashOnDelivery | backend/src/Controllers/Product/slice/buyProduct.controller.js:9-52 | "COD" is stored as "cod" yet marked completed. |
| SingleOrder.PurchaseOrder | backend/src/Controllers/Product/slice/buyProduct.controller.js:41-54 | One line at the percentage price. The total is that line's amount. Status pending, and the shipping snapshot. |
| SingleOrder.Sold | backend/src/Controllers/Product/slice/buyProduct.controller.js:57-63 | Stock drops by exactly the quantity. Availability is cleared exactly when the new stock is at most 0. Nothing else changes. |
| SingleOrder.PlaceSingleOrder | backend/src/Controllers/Product/slice/buyProduct.controller.js:6-78 | A missing payment method gives 500, and a missing or unavailable product 404. Stock below the quantity gives 400. None of these changes anything. Otherwise 201: the order is stored under the new, unused id, so the order count grows by one and every earlier order survives unchanged; the product is Sold. |
| OrderDetails.DisplayId | backend/src/Controllers/Product/slice/getOrderDetails.controller.js:16 | The display id is the last (at most 8) characters of the storage id, upper-cased. |
| OrderDetails.DisplayIdOfObjectId | backend/src/Controllers/Product/slice/getOrderDetails.controller.js:81 | For a valid ObjectId it is exactly 8 upper-case hexadecimal digits. |
| OrderDetails.FormatItem | backend/src/Controllers/Product/slice/getOrderDetails.controller.js:24-31 | An item view keeps the line's price and quantity. Product code, name and first image are present exactly when the product still exists. |
| OrderDetails.FormatItems | backend/src/Controllers/Product/slice/getOrderDetails.controller.js:24 | One view per line, in order. |
| OrderDetails.FormatOrder | backend/src/Controllers/Product/slice/getOrderDetails.controller.js:14-32 | A view carries the storage id, the display id, the total, the status, the payment method and status, the shipping address and the creation time of the order, and one formatted item per line, in order. |
| OrderDetails.InsertByDate | backend/src/Controllers/Product/slice/getOrderDetails.controller.js:12 | Inserting an order adds exactly that id. |
| OrderDetails.InsertByDateSorted | backend/src/Controllers/Product/slice/getOrderDetails.controller.js:12 | Insertion keeps a newest-first listing newest first. |
| OrderDetails.InsertByDateDistinct | backend/src/Controllers/Product/slice/getOrderDetails.controller.js:12 | Insertion of a new id keeps the listing free of repeats. |
| OrderDetails.MyOrders | backend/src/Controllers/Product/slice/getOrderDetails.controller.js:10-12 | Lists exactly the caller's orders, each once, newest first. |
| OrderDetails.GetMyOrders | backend/src/Controllers/Product/slice/getOrderDetails.controller.js:8-46 | The formatted list holds exactly the caller's orders, each once, newest first, each formatted by FormatOrder. |
| OrderDetails.GetOrderDetails | backend/src/Controllers/Product/slice/getOrderDetails.controller.js:49-112 | An invalid id gives 400, then a missing order 404, then another user's order 403. 200 exactly when the order exists and is the caller's, and it then returns that order formatted. |
| OrderDetails.RestoreStockMeaning | backend/src/Controllers/Product/slice/getOrderDetails.controller.js:153-159 | Restoring keeps the same products. Each product's stock rises by the quantity its lines name, missing products are skipped, and availability is untouched. |
| OrderDetails.CancelOrder | backend/src/Controllers/Product/slice/getOrderDetails.controller.js:115-174 | Returns 400, 404, 403, or 400 for a status other than pending or confirmed, each with no change. Otherwise 200: the status becomes cancelled, the stock is restored, and nothing else changes. |
| OrderDetails.RestoreStock | backend/src/Controllers/Product/slice/getOrderDetails.controller.js:152-159 | Restoring touches no other product record and adds none, and an order without lines changes nothing. |
| Admin.PickChar | backend/src/Routes/admin.router.js:14 | A random draw in [0, 1) picks a character of the alphabet. |
| Admin.GenerateName | backend/src/Routes/admin.router.js:10-17 | The loop yields exactly `length` characters, each the alphabet character its draw picks. |
| Admin.GeneratedCode | backend/src/Routes/admin.router.js:52 | The default code has 15 characters from the alphabet. |
| Admin.ValidateProduct | backend/src/Routes/admin.router.js:33-48 | The product passes exactly when every required field is truthy, there are images, the discount is at most 100 and the category exists. Price 0 or discount 0 is rejected with 400. |
| Admin.NewProduct | backend/src/Routes/admin.router.js:51-61 | The record takes the generated code and the input name, description, category, price, discount and images. It is available, stock is the input stock or 0, and it has rating "0" and review 0. |
| Admin.CreateProduct | backend/src/Routes/admin.router.js:20-69 | Invalid input gives 400. A generated code that an existing product already has breaks the unique index and gives 500. Neither changes anything. Otherwise 201, and exactly one new product is stored under a fresh id. Codes stay unique. |
| Session.StoreRefreshToken | backend/src/Utils/GenerateAccessTokenAndRefreshToken.js:13-14 | Only that user's `refrestoken` changes, and it becomes the new token. |
| Session.IssueTokens | backend/src/Utils/GenerateAccessTokenAndRefreshToken.js:3-21 | An unknown user gives null and no change. Otherwise both tokens are returned and the refresh token is stored. |
| Session.LoginStatus | backend/src/Controllers/Auth/slice/Login.controller.js:58-72 | A null result from token issue surfaces as 500. Success is 200. |
| Session.Refresh | backend/src/Controllers/Auth/slice/RefreshToken.Controller.js:5-53 | No cookie gives 400 and a failed verification 500. A missing user gives 404 and a token other than the stored one 400. 200 exactly when all pass, and it re-sends the same cookie with a new access token. |
| Session.OnlyLatestTokenRefreshes | backend/src/Controllers/Auth/slice/RefreshToken.Controller.js:33 | After a token is stored, a presented token refreshes exactly when it is the stored one. |
| Session.SaveTokenPath | backend/src/Routes/user.Route.js:37 | Writing the schema's `refrestoken` path stores the token. Any other path is dropped by strict mode. |
| Session.Logout | backend/src/Routes/user.Route.js:37 | Logout as written writes `refreshtoken`, so the stored users are unchanged. |
| Session.RefreshSurvivesLogout | backend/src/Routes/user.Route.js:37 | A token that refreshed before logout still refreshes after it. |
| Session.LogoutIntended | backend/src/Models/user.model.js:25 | Clearing the schema's `refrestoken` field stores the empty token. |
| Session.RefreshFailsAfterIntendedLogout | backend/src/Controllers/Auth/slice/RefreshToken.Controller.js:33-37 | After the intended logout, every verified token of that user gets 400. |
| ClientCart.IndexOfId | backend/frontend/src/store/slices/cartSlice.jsx:29 | `find` locates the first item with the id, or the length when absent. |
| ClientCart.QuantitySum | backend/frontend/src/store/slices/cartSlice.jsx:43 | The `totalQuantity` reduce: an empty cart has 0 units. Its meaning is fixed by SumsAppend and SumsOfOne. |
| ClientCart.AmountSum | backend/frontend/src/store/slices/cartSlice.jsx:44 | The `totalAmount` reduce: an empty cart totals 0. Its meaning is fixed by SumsAppend and SumsOfOne. |
| ClientCart.SumsNonNegative | backend/frontend/src/store/slices/cartSlice.jsx:43-44 | Non-negative quantities give a non-negative unit count, and with non-negative prices a non-negative amount. |
| ClientCart.SumsAppend | backend/frontend/src/store/slices/cartSlice.jsx:43-44 | Both totals add over concatenation. |
| ClientCart.SumsOfOne | backend/frontend/src/store/slices/cartSlice.jsx:43-44 | A single item contributes its quantity and price × quantity. |
| ClientCart.SumsAfterSetQuantity | backend/frontend/src/store/slices/cartSlice.jsx:58-61 | Overwriting one quantity moves both totals by exactly the difference. |
| ClientCart.MergeTotals | backend/frontend/src/store/slices/cartSlice.jsx:28-44 | Adding raises the quantity total by the added quantity. The amount rises by that quantity at the stored item's price, or at the new price for a new item. |
| ClientCart.MergeKeepsIdsUnique | backend/frontend/src/store/slices/cartSlice.jsx:29-41 | One add keeps ids unique. |
| ClientCart.Merge | backend/frontend/src/store/slices/cartSlice.jsx:28-41 | Adding grows the cart by at most one item. |
| ClientCart.MergeKeepsOthers | backend/frontend/src/store/slices/cartSlice.jsx:29-41 | Items with other ids are unchanged. |
| ClientCart.MergedInPlace | backend/frontend/src/store/slices/cartSlice.jsx:29-41 | Bumping the found item in place, or pushing the new item when none is found, gives Merge. The quantity total grows by the added quantity and ids stay unique. |
| ClientCart.WithoutId | backend/frontend/src/store/slices/cartSlice.jsx:48 | No item with the id remains, and the cart does not grow. |
| ClientCart.MergeAll | backend/frontend/src/store/slices/cartSlice.jsx:27-45 | A sequence of adds grows the cart by at most one item per add. |
| ClientCart.MergeAllKeepsCart | backend/frontend/src/store/slices/cartSlice.jsx:29-43 | Over any sequence of adds, ids stay unique and the quantity total grows by the sum of the added quantities. |
| ClientCart.WithoutIdMeaning | backend/frontend/src/store/slices/cartSlice.jsx:48 | The filter distributes over concatenation, so it keeps the relative order. It keeps exactly the items with other ids. |
| ClientCart.WithoutAbsentId | backend/frontend/src/store/slices/cartSlice.jsx:48 | Removing an absent id leaves the items unchanged. |
| ClientCart.WithoutIdKeepsIdsUnique | backend/frontend/src/store/slices/cartSlice.jsx:48 | Removal keeps ids unique. |
| ClientCart.WithoutIdSubsequence | backend/frontend/src/store/slices/cartSlice.jsx:48 | Every kept item was in the cart, and ids stay unique. |
| ClientCart.FirstIndexOfId | backend/frontend/src/store/slices/cartSlice.jsx:29 | Any index with the first-match property is IndexOfId. |
| ClientCart.SumQuantity | backend/frontend/src/store/slices/cartSlice.jsx:43 | The `reduce` loop yields the quantity total. |
| ClientCart.SumAmount | backend/frontend/src/store/slices/cartSlice.jsx:44 | The `reduce` loop yields the amount total. |
| ClientCart.FindItem | backend/frontend/src/store/slices/cartSlice.jsx:29 | The search loop returns the first index with the id. |
| ClientCart.FilterItems | backend/frontend/src/store/slices/cartSlice.jsx:48 | The filter loop keeps exactly what WithoutId keeps. |
| ClientCart.CartState.constructor | backend/frontend/src/store/slices/cartSlice.jsx:4-11 | The store starts empty, with zero totals, not loading, no error and closed. |
| ClientCart.CartState.OpenCart | backend/frontend/src/store/slices/cartSlice.jsx:18-20 | Opens the cart and changes nothing else. |
| ClientCart.CartState.CloseCart | backend/frontend/src/store/slices/cartSlice.jsx:21-23 | Closes the cart and changes nothing else. |
| ClientCart.CartState.ToggleCart | backend/frontend/src/store/slices/cartSlice.jsx:24-26 | Flips the open flag and changes nothing else. |
| ClientCart.CartState.AddItem | backend/frontend/src/store/slices/cartSlice.jsx:27-45 | The items become Merge of the old items and the new item, with quantity defaulting to 1. The quantity total grows by that quantity. Totals match and ids stay unique. |
| ClientCart.CartState.RemoveItem | backend/frontend/src/store/slices/cartSlice.jsx:46-52 | The items become WithoutId of the old items. Totals are recomputed and ids stay unique. |
| ClientCart.CartState.UpdateQuantity | backend/frontend/src/store/slices/cartSlice.jsx:53-63 | An absent id changes nothing, totals included. A present id gets the new quantity, and the quantity total moves by the difference. |
| ClientCart.CartState.ClearCart | backend/frontend/src/store/slices/cartSlice.jsx:64-68 | Empties the items and zeroes both totals. Open, loading and error stay. |
| ClientCart.CartState.SetLoading | backend/frontend/src/store/slices/cartSlice.jsx:69-71 | Sets only the loading flag. |
| ClientCart.CartState.SetError | backend/frontend/src/store/slices/cartSlice.jsx:72-74 | Sets only the error. |
| OrderSummary.IsValidAddress | frontend/src/components/OrderSummary.jsx:19-45 | A missing or non-object address is invalid, and a valid one has street, city, state and zip present. |
| OrderSummary.AddressCheckIsTrimTest | frontend/src/components/OrderSummary.jsx:19-45 | The check holds exactly for an address object whose street, city, state and zip are each non-empty after `trim()`. |
| OrderSummary.FilledIsTrimTest | frontend/src/components/OrderSummary.jsx:24-33 | One field passes exactly when it is a non-empty string that is still non-empty after `trim()`. |
| OrderSummary.TypeNotRequired | frontend/src/components/OrderSummary.jsx:24-33 | The address type does not affect validity. |
| OrderSummary.SpacesAreNotAnAddress | frontend/src/components/OrderSummary.jsx:31-32 | A zip of spaces makes the address invalid. |
| OrderSummary.QuantityUpdate | frontend/src/components/OrderSummary.jsx:154-161 | Below 1 gives 1. Above the stock gives the stock. Otherwise prev + change, which is also the result with no summary loaded. |
| OrderSummary.QuantityStaysInRange | frontend/src/components/OrderSummary.jsx:154-161 | From 1 ≤ prev ≤ stock, a ±1 step stays within [1, stock]. |
| OrderSummary.OutOfStockIncrement | frontend/src/components/OrderSummary.jsx:158 | With stock 0, incrementing from 1 gives 0. |
| OrderSummary.SummaryPrice | frontend/src/components/OrderSummary.jsx:164-166 | A positive discount takes that percentage off. Any other discount keeps the price. |
| OrderSummary.SummaryPriceAgreesWithPurchase | frontend/src/components/OrderSummary.jsx:164-166 | For a non-negative discount the page shows the unit price the purchase handler charges. |
| OrderSummary.NegativeDiscountDisagrees | frontend/src/components/OrderSummary.jsx:165 | At a discount of −10 the page shows 100 while the handler charges 110. |
| OrderSummary.PayloadFor | frontend/src/components/OrderSummary.jsx:103-109 | The payload carries the product, quantity and address. The method is 'cod' and the total is the discounted price × quantity. |
| OrderSummary.LoadError | frontend/src/components/OrderSummary.jsx:85 | The server's message when it sent one, otherwise "Failed to load order summary". It is never empty. |
| OrderSummary.Checkout.constructor | frontend/src/components/OrderSummary.jsx:10-16 | Step 1, quantity 1, loading, no summary, no selection, address not valid. |
| OrderSummary.Checkout.Load | frontend/src/components/OrderSummary.jsx:47-89 | Signed out, it goes to login. A failure records the error. An invalid address gives an empty list with addressValid false. A valid one gives a one-element list, is selected, and sets addressValid. |
| OrderSummary.Checkout.ChangeQuantity | frontend/src/components/OrderSummary.jsx:154-161 | The quantity becomes QuantityUpdate against the loaded stock. Nothing else changes. |
| OrderSummary.Checkout.ContinueToAddress | frontend/src/components/OrderSummary.jsx:134-141 | Step 2 only with a valid address. Otherwise the step stays and the page goes to the profile, provided a summary was loaded. |
| OrderSummary.Checkout.SelectAddress | frontend/src/components/OrderSummary.jsx:372-382 | Clicking a listed address selects it, and it is a valid address. Nothing else changes. |
| OrderSummary.Checkout.Back | frontend/src/components/OrderSummary.jsx:484 | The back button returns to step 1. Nothing else changes. |
| OrderSummary.Checkout.PlaceOrder | frontend/src/components/OrderSummary.jsx:92-131 | Sends PayloadFor exactly when the selection is a valid address, and otherwise goes to the profile. Step 3 only after a successful reply. Failure messages go to the error. |
| OrderSummary.HappyPath | frontend/src/components/OrderSummary.jsx:13-141 | With a valid address, loading, continuing and a successful order reach step 3 and send quantity 1. |
| ProductDetail.DisplayPrice | backend/frontend/src/pages/ProductDetail.jsx:75-80 | The discount applies only strictly between 0 and 100. A non-negative price stays between 0 and itself. |
| ProductDetail.DisplayPriceAgainstPurchase | backend/frontend/src/pages/ProductDetail.jsx:75-80 | For discounts in [0, 100) the shown price is the charged one. At 100 the page shows the list price while the handler charges 0. |
| ProductDetail.DisplayPriceAgainstSummary | backend/frontend/src/pages/ProductDetail.jsx:76 | The product page and the checkout page agree below 100 percent. They disagree at 100 for a priced product. |
| ProductDetail.NegativeStockLeavesActionsEnabled | backend/frontend/src/pages/ProductDetail.jsx:362 | Only stock exactly 0 disables the buttons. A negative stock does not. |
| ProductDetail.ActionsDisabled | backend/frontend/src/pages/ProductDetail.jsx:362 | An unavailable product or a stock of exactly 0 disables the buttons. An available one with positive stock leaves them enabled. |
| ProductDetail.PublicId | backend/frontend/src/pages/ProductDetail.jsx:49 | `productid` when set, otherwise the storage id. |
| ProductDetail.FirstImage | backend/frontend/src/pages/ProductDetail.jsx:52 | The first image, or "" when there is none. |
| ProductDetail.CartItemFor | backend/frontend/src/pages/ProductDetail.jsx:48-54 | The item has the public id, the name, the displayed price, the first image and the chosen quantity. |
| ProductDetail.AddedItemTotals | backend/frontend/src/pages/ProductDetail.jsx:56 | Adding a product not yet in the cart appends it. The cart totals grow by the quantity and by quantity × the displayed price. |
| ProductDetail.ProductPage.constructor | backend/frontend/src/pages/ProductDetail.jsx:10-14 | Loading, quantity 1, first image selected. |
| ProductDetail.ProductPage.Load | backend/frontend/src/pages/ProductDetail.jsx:20-37 | A reply stores the product and selects the first image when it has images. A failed request records "Product not found" and keeps the product. Loading ends either way and the quantity stays. |
| ProductDetail.ProductPage.ChangeQuantity | backend/frontend/src/pages/ProductDetail.jsx:91-98 | The same clamp as the checkout page, against the product's stock. Nothing else changes. |
| ProductDetail.ProductPage.AddToCart | backend/frontend/src/pages/ProductDetail.jsx:38-61 | Signed out, it goes to login and adds nothing. Otherwise it hands CartItemFor to the cart once the product is loaded. |
| ProductDetail.ProductPage.BuyNow | backend/frontend/src/pages/ProductDetail.jsx:64-72 | Signed out, it goes to login. Otherwise it goes to the checkout of PublicId. |
| OrderStatusView.StatusText | frontend/src/pages/Orders.jsx:73-88 | 'pending' shows "Processing" and an unknown status is shown unchanged. Other known statuses are capitalised. |
| OrderStatusView.StatusLabels | backend/frontend/src/pages/OrderDetails.jsx:68-83 | Two stored statuses get the same label exactly when they are the same status. |
| OrderStatusView.StatusColour | frontend/src/pages/Orders.jsx:58-71 | Yellow exactly for statuses other than delivered, shipped, confirmed and cancelled. Green exactly for delivered, blue for shipped, purple for confirmed and red for cancelled. |
| OrderStatusView.CanCancel | frontend/src/pages/Orders.jsx:226 | The cancel button shows exactly for pending and confirmed orders. |
| OrderStatusView.CanCancelAgreesWithServer | frontend/src/pages/Orders.jsx:226 | The cancel button shows for exactly the statuses the server lets a customer cancel. |
| OrderStatusView.MarkCancelled | frontend/src/pages/Orders.jsx:45-49 | Orders with the id get status 'cancelled'. Every other order is unchanged. |
| OrderStatusView.MarkCancelledMeaning | frontend/src/pages/Orders.jsx:43-49 | Marking is idempotent, and an absent id changes nothing. Marked orders lose the cancel button. |
| OrderStatusView.OrdersPage.constructor | frontend/src/pages/Orders.jsx:7 | The list starts empty. |
| OrderStatusView.OrdersPage.Cancel | frontend/src/pages/Orders.jsx:32-56 | A declined confirmation sends nothing. A successful reply marks the order. Any other reply leaves the list. |
| OrderStatusView.OrderDetailsPage.constructor | backend/frontend/src/pages/OrderDetails.jsx:10 | No order is loaded. |
| OrderStatusView.OrderDetailsPage.Cancel | backend/frontend/src/pages/OrderDetails.jsx:32-51 | A declined confirmation sends nothing. Success sets only the status to cancelled. |
| Home.Prop | frontend/src/pages/Home.jsx:26 | A property read is present exactly on an object that has the key. |
| Home.FirstIndex | frontend/src/pages/Home.jsx:30 | The first position of a value, or the length when absent. |
| Home.DistinctTruthyMembers | frontend/src/pages/Home.jsx:30 | The result holds exactly the truthy categories that occur. |
| Home.DistinctTruthy | frontend/src/pages/Home.jsx:30 | The result is no longer than the input, and each entry is a truthy category that occurs in it. |
| Home.DistinctTruthyDistinct | frontend/src/pages/Home.jsx:30 | The result has no repeats. |
| Home.DistinctTruthyOrder | frontend/src/pages/Home.jsx:30 | The result is in first-occurrence order. |
| Home.FirstIndexOfPrefix | frontend/src/pages/Home.jsx:30 | Extending a list keeps first positions, and a new value's first position is the old length. |
| Home.Categories | frontend/src/pages/Home.jsx:30 | One category read per product, in order. |
| Home.ListsUsedAsGiven | frontend/src/pages/Home.jsx:24-34 | An array body, a data array starting with a string, or a `categories` array is used as given. |
| Home.EmptyDataKeepsCategories | frontend/src/pages/Home.jsx:26-32 | An empty data array leaves the categories as they were. |
| Home.UnknownShapesClear | frontend/src/pages/Home.jsx:35-41 | A failed request, a null body, or any other shape gives []. |
| Home.NormalizeCategories | frontend/src/pages/Home.jsx:18-45 | A failed request gives []. An array body is used as given. The categories stay only for a body whose `data` is an array. |
| Home.ProductCategoriesDistinct | frontend/src/pages/Home.jsx:29-31 | Product objects give their truthy categories, each once and first-seen first, with every present category included. |
| Home.ShownCategories | frontend/src/pages/Home.jsx:159 | At most the first 10 categories, and none while loading. |
| Home.Head | frontend/src/pages/Home.jsx:187 | The first 12 products. |
| Home.Rest | frontend/src/pages/Home.jsx:259-266 | Non-empty exactly when there are more than 12 products, and then everything after the twelfth. |
| Home.HeadAndRestPartition | frontend/src/pages/Home.jsx:187-266 | The featured section and "More Products" together are the whole list. |
| Home.HomePage.constructor | frontend/src/pages/Home.jsx:8-13 | No categories, no featured or trending products, both loading flags set and no error. |
| Home.HomePage.ReceiveCategories | frontend/src/pages/Home.jsx:18-45 | The categories take the normaliser's update or stay. Category loading ends. The product lists, their loading flag and the error are untouched. |

## Left out

- `Number()` is modelled for optionally signed decimal numerals with an optional fraction, plus blank strings. Exponents, hexadecimal, `Infinity` and underscores convert to NaN in the model.
- Records.IsValidObjectId: follows the string rule of bson 6, where only 24 hexadecimal digits are a valid id. Earlier bson releases also accepted any 12-character string, which the model does not.
- Case mapping is ASCII only. There is no Unicode case folding.
- `toFixed(2)` and `toLocaleString` are left out. Prices are exact reals, so `DisplayPrice` is the unrounded number rather than the two-decimal string the page produces.
- How MongoDB evaluates `$facet`, `$regex`, `$in` and `$toDouble`, and the counting of the metadata, are left out. `TotalPages` takes the total as an input.
- `backend/src/Models/cart.model.js` is not part of this model. The cart record is modelled as its lines and total only, and the order's `discount: cart.discount \|\| 0` is fixed to 0 and the coupon to none.
- ServerCart.AddToCart: the caller's `quantity` is an integer. JavaScript's string concatenation for a string quantity is left out, and a negative quantity is accepted, as in the source.
- `CartPrice` (list price minus discount) is not bounded below: it can be negative, as in the source. Its relation to the percentage price is the lemma `CartAndPurchasePricesDiffer`.
- SingleOrder.PlaceSingleOrder: the only failure of `toLowerCase` modelled is a missing payment method. Other database failures that end in the 500 catch are left out.
- A negative quantity passes the purchase's stock check, as in the source. The model accepts it too.
- `Math.random` is an input sequence of draws in [0, 1). Fresh storage ids and creation times are inputs as well.
- JSON Web Tokens are opaque strings, and `jwt.verify` is a function parameter from token to user id or failure. Signing, expiry and secrets are left out.
- `description` in the order-details item view is always undefined in the source, because the populated product has no such field. `deliveryDate` is not stored either. Both are left out of the views.
- React rendering, `alert`, `navigate` and HTTP calls are left out. Navigation is a boolean or an optional target, and HTTP replies are inputs.
- The `useCart` and `AuthContext` plumbing is left out.
- A JavaScript `Set` compares object and array categories by reference. The model compares all categories by value, so equal objects count once.
- Home.NormalizeCategories: a data array containing `null` throws inside `map`, and the catch sets []. The model follows this. A product without a `category` gives `undefined`, which is falsy and filtered.
- OrderSummary.IsValidAddress: a truthy non-string field would throw on `.trim()`. The model's fields are strings. The source returns the falsy field itself rather than `false`, and the model returns the boolean.
- OrderSummary.Checkout.Load: an invalid address on a later load keeps an earlier selection, as written.
- Concurrency between requests (lost cart updates, overselling under races) is outside a sequential model.

## Findings

| source | as written | input that shows it | evidently intended | confidence | as-written member | corrected member |
|---|---|---|---|---|---|---|
| backend/src/Routes/user.Route.js:37 | logout assigns `user.refreshtoken = ''`, a path the user schema does not have (it names the field `refrestoken`), so strict mode drops the write | a user whose stored `refrestoken` is t logs out, then presents t to the refresh endpoint: 200 and a new access token | logout clears `refrestoken`, so the same refresh gets 400 "Token Expired" | not executed | Session.RefreshSurvivesLogout | Session.RefreshFailsAfterIntendedLogout |
