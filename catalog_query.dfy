/** The catalogue query builder of the products endpoint: it turns the loosely typed values
    of a query string into a filter, a sort order, a projection and a page window, and
    looks a single product up by either of its two identities. What the database then
    does with the pipeline is not modelled: the pipeline itself is the result. */
module CatalogQuery {
  import opened Js
  import opened Records

  const DefaultLimit: real := 20.0
  const MaxLimit: real := 100.0
  const AllowedSortFields: seq<string> := ["price", "rating", "createdAt", "discount", "review", "stock"]
  const AllowedProjectionFields: seq<string> :=
    ["productname", "price", "category", "discount", "rating", "review", "stock", "images", "isavailable", "createdAt"]

  // ---------------------------------------------------------------------------
  // Query values and their coercions
  // ---------------------------------------------------------------------------

  /** One value of `req.query`: absent, a string, a repeated key (a list of strings), a
      bracketed key (an object); `null` and booleans are handled by the parsers too. */
  datatype QueryValue = Undefined | Null | Bool(b: bool) | Text(s: string) | Many(items: seq<string>) | Nested

  type Query = map<string, QueryValue>

  function Get(q: Query, key: string): QueryValue {
    if key in q then q[key] else Undefined
  }

  /** JavaScript truthiness of a query value. */
  predicate Truthy(v: QueryValue) {
    match v
    case Undefined => false
    case Null => false
    case Bool(b) => b
    case Text(s) => s != ""
    case Many(_) => true
    case Nested => true
  }

  /** `String(v)`; a list prints as its items joined with commas. */
  function ToText(v: QueryValue): string {
    match v
    case Undefined => "undefined"
    case Null => "null"
    case Bool(b) => if b then "true" else "false"
    case Text(s) => s
    case Many(items) => Join(items, ',')
    case Nested => "[object Object]"
  }

  /** `Number(v)`; a list converts through its string form. */
  function ToNumber(v: QueryValue): JsNumber {
    match v
    case Undefined => NaN
    case Null => Finite(0.0)
    case Bool(b) => Finite(if b then 1.0 else 0.0)
    case Text(s) => StringToNumber(s)
    case Many(items) => StringToNumber(Join(items, ','))
    case Nested => NaN
  }

  /** `parseNumber(value, fallback)`: the fallback for undefined, null, "" and anything
      whose `Number()` is NaN, otherwise that number. */
  function ParseNumber(v: QueryValue, fallback: Option<real>): (r: Option<real>)
    ensures v == Undefined || v == Null || v == Text("") || ToNumber(v).NaN? ==> r == fallback
    ensures v != Undefined && v != Null && v != Text("") && ToNumber(v).Finite? ==> r == Some(ToNumber(v).value)
  {
    if v == Undefined || v == Null || v == Text("") then fallback
    else
      match ToNumber(v)
      case NaN => fallback
      case Finite(n) => Some(n)
  }

  /** A decimal numeral parses to its value, whatever the fallback. */
  lemma ParseNumberOfNumeral(n: nat, fallback: Option<real>)
    ensures ParseNumber(Text(NatToDecimal(n)), fallback) == Some(n as real)
  {
    NumberOfDecimal(n);
  }

  /** A value made only of whitespace is not "" and parses to 0, not to the fallback. */
  lemma ParseNumberOfBlank(s: string, fallback: Option<real>)
    requires s != "" && IsBlank(s)
    ensures ParseNumber(Text(s), fallback) == Some(0.0)
  {
  }

  const TrueWords: seq<string> := ["true", "1", "yes", "y"]
  const FalseWords: seq<string> := ["false", "0", "no", "n"]

  /** `parseBoolean(value)`: undefined stays undefined, a boolean is itself, and any other
      value is matched, lower-cased, against the two word lists. */
  function ParseBoolean(v: QueryValue): (r: Option<bool>)
    ensures v == Undefined ==> r == None
    ensures v.Bool? ==> r == Some(v.b)
    ensures !v.Undefined? && !v.Bool? ==>
      (r == Some(true) <==> ToLower(ToText(v)) in TrueWords) && (r == Some(false) <==> ToLower(ToText(v)) in FalseWords)
  {
    if v == Undefined then None
    else if v.Bool? then Some(v.b)
    else
      var w := ToLower(ToText(v));
      if w in TrueWords then Some(true)
      else if w in FalseWords then Some(false)
      else None
  }

  /** Case does not matter: "YES", "Yes" and "yes" parse alike. */
  lemma ParseBooleanIgnoresCase(s: string)
    ensures ParseBoolean(Text(s)) == ParseBoolean(Text(ToLower(s)))
  {
    ToLowerIdempotent(s);
  }

  // ---------------------------------------------------------------------------
  // sanitizeString and the text and category filters
  // ---------------------------------------------------------------------------

  /** Every '.' and '$' removed, the other characters kept in order. */
  function StripOperators(s: string): (r: string)
    ensures |r| <= |s|
    ensures forall c :: c in r <==> c in s && c != '.' && c != '$'
    ensures |s| == 1 ==> (r == [] <==> s[0] == '.' || s[0] == '$') && (r != [] ==> r == s)
  {
    if s == [] then []
    else (if s[0] == '.' || s[0] == '$' then [] else [s[0]]) + StripOperators(s[1..])
  }

  /** The removal works character by character: it distributes over concatenation, so
      together with the one-character case it fixes the order and the multiplicity of
      what is kept. */
  lemma {:induction false} StripOperatorsAppend(a: string, b: string)
    ensures StripOperators(a + b) == StripOperators(a) + StripOperators(b)
  {
    if a == [] {
      assert a + b == b;
    } else {
      assert (a + b)[0] == a[0];
      assert (a + b)[1..] == a[1..] + b;
      StripOperatorsAppend(a[1..], b);
      var head := if a[0] == '.' || a[0] == '$' then [] else [a[0]];
      assert StripOperators(a + b) == head + StripOperators(a[1..] + b);
      assert StripOperators(a) == head + StripOperators(a[1..]);
    }
  }

  /** What is kept is the input with every '.' and '$' taken out, counted exactly. */
  lemma {:induction false} StripOperatorsCounts(s: string)
    ensures forall c :: multiset(StripOperators(s))[c] == if c == '.' || c == '$' then 0 else multiset(s)[c]
  {
    if s != [] {
      StripOperatorsCounts(s[1..]);
      var head := if s[0] == '.' || s[0] == '$' then [] else [s[0]];
      assert StripOperators(s) == head + StripOperators(s[1..]);
      assert s == [s[0]] + s[1..];
    }
  }

  lemma {:induction false} StripOperatorsKeepsPlain(s: string)
    requires '.' !in s && '$' !in s
    ensures StripOperators(s) == s
  {
    if s != [] {
      StripOperatorsKeepsPlain(s[1..]);
    }
  }

  /** `sanitizeString(input)`: '' for a non-string, else trimmed and without '.' and '$'. */
  function Sanitize(v: QueryValue): (r: string)
    ensures !v.Text? ==> r == ""
    ensures '.' !in r && '$' !in r
    ensures |r| <= |ToText(v)|
  {
    if v.Text? then StripOperators(Trim(v.s)) else ""
  }

  /** A string with nothing to trim and no '.' or '$' passes through unchanged. */
  lemma SanitizeKeepsPlain(s: string)
    requires '.' !in s && '$' !in s
    requires s == [] || (!IsSpace(s[0]) && !IsSpace(s[|s| - 1]))
    ensures Sanitize(Text(s)) == s
  {
    TrimOfTrimmed(s);
    StripOperatorsKeepsPlain(s);
  }

  /** The trim runs before the removal, so removing a '$' can expose whitespace. */
  lemma SanitizeCanExposeSpace()
    ensures Sanitize(Text("$ x")) == " x"
  {
    assert LeadingSpaces("$ x") == 0;
    assert TrailingSpaces("$ x") == 0;
    assert Trim("$ x") == "$ x";
    assert StripOperators("$ x") == [] + StripOperators(" x");
    assert StripOperators(" x") == [' '] + StripOperators("x");
    assert StripOperators("x") == ['x'] + StripOperators("");
  }

  /** `buildTextSearchCondition(q)`: the sanitized search text, when there is any. */
  function TextSearch(v: QueryValue): (r: Option<string>)
    ensures !Truthy(v) || !v.Text? ==> r == None
    ensures r.Some? <==> Truthy(v) && Sanitize(v) != ""
    ensures r.Some? ==> r.value != "" && '.' !in r.value && '$' !in r.value && r.value == Sanitize(v)
  {
    if !Truthy(v) then None
    else
      var s := Sanitize(v);
      if s == "" then None else Some(s)
  }

  /** The non-empty sanitized pieces, in order. */
  function CleanPieces(parts: seq<string>): (r: seq<string>)
    ensures |r| <= |parts|
    ensures forall i :: 0 <= i < |r| ==> r[i] != "" && '.' !in r[i] && '$' !in r[i]
    ensures |parts| == 1 ==>
      (r == [] <==> Sanitize(Text(parts[0])) == "") && (r != [] ==> r == [Sanitize(Text(parts[0]))])
  {
    if parts == [] then []
    else
      var c := Sanitize(Text(parts[0]));
      (if c == "" then [] else [c]) + CleanPieces(parts[1..])
  }

  /** Each piece is cleaned on its own, so the cleaning distributes over concatenation:
      with the one-piece case this fixes the result as the sanitized non-empty pieces, in
      their order. */
  lemma {:induction false} CleanPiecesAppend(p: seq<string>, q: seq<string>)
    ensures CleanPieces(p + q) == CleanPieces(p) + CleanPieces(q)
  {
    if p == [] {
      assert p + q == q;
    } else {
      assert (p + q)[0] == p[0];
      assert (p + q)[1..] == p[1..] + q;
      CleanPiecesAppend(p[1..], q);
      var c := Sanitize(Text(p[0]));
      var head := if c == "" then [] else [c];
      var tail, rest := CleanPieces(p[1..]), CleanPieces(q);
      assert CleanPieces(p + q) == head + (tail + rest);
      assert CleanPieces(p) == head + tail;
      ConcatAssoc(head, tail, rest);
    }
  }

  /** Proof helper: regrouping a concatenation. Stated on its own because the same fact
      asserted inside CleanPiecesAppend sends that proof past its resource budget. */
  lemma ConcatAssoc<T>(a: seq<T>, b: seq<T>, c: seq<T>)
    ensures a + (b + c) == (a + b) + c
  {
  }

  /** `.filter(cat => cat)`: the non-empty strings, in order. */
  function NonEmpty(xs: seq<string>): (r: seq<string>)
    ensures forall c :: c in r <==> c in xs && c != ""
  {
    if xs == [] then []
    else
      var rest := NonEmpty(xs[1..]);
      assert forall c :: c in xs <==> c == xs[0] || c in xs[1..] by {
        assert xs == [xs[0]] + xs[1..];
      }
      (if xs[0] == "" then [] else [xs[0]]) + rest
  }

  /** `.map(cat => sanitizeString(cat))`. */
  function SanitizedPieces(parts: seq<string>): (r: seq<string>)
    ensures |r| == |parts| && forall i :: 0 <= i < |parts| ==> r[i] == Sanitize(Text(parts[i]))
  {
    seq(|parts|, i requires 0 <= i < |parts| => Sanitize(Text(parts[i])))
  }

  /** The recursive cleaning is the source's map-then-filter chain, so a name is in the
      cleaned list exactly when it is the non-empty sanitized form of some piece. */
  lemma {:induction false} CleanPiecesIsMapFilter(parts: seq<string>)
    ensures CleanPieces(parts) == NonEmpty(SanitizedPieces(parts))
    ensures forall c :: c in CleanPieces(parts) <==> c != "" && c in SanitizedPieces(parts)
  {
    if parts != [] {
      CleanPiecesIsMapFilter(parts[1..]);
      var mapped := SanitizedPieces(parts);
      assert mapped[0] == Sanitize(Text(parts[0]));
      assert mapped[1..] == SanitizedPieces(parts[1..]);
    }
  }

  /** A category name that survives splitting and sanitizing unchanged. */
  predicate CleanCategory(c: string) {
    c != "" && ',' !in c && '.' !in c && '$' !in c && !IsSpace(c[0]) && !IsSpace(c[|c| - 1])
  }

  lemma {:induction false} CleanPiecesKeepsClean(parts: seq<string>)
    requires forall i :: 0 <= i < |parts| ==> CleanCategory(parts[i])
    ensures CleanPieces(parts) == parts
  {
    if parts != [] {
      SanitizeKeepsPlain(parts[0]);
      CleanPiecesKeepsClean(parts[1..]);
    }
  }

  /** `buildCategoryCondition(param)`: the comma-separated, sanitized, non-empty names. */
  function CategoryCondition(v: QueryValue): (r: Option<seq<string>>)
    ensures !Truthy(v) ==> r == None
    ensures Truthy(v) ==>
      (r.Some? <==> CleanPieces(Split(ToText(v), ',')) != []) && (r.Some? ==> r.value == CleanPieces(Split(ToText(v), ',')))
    ensures r.Some? ==> |r.value| > 0
    ensures r.Some? ==> forall i :: 0 <= i < |r.value| ==> r.value[i] != "" && '.' !in r.value[i] && '$' !in r.value[i]
  {
    if !Truthy(v) then None
    else
      var cats := CleanPieces(Split(ToText(v), ','));
      if cats == [] then None else Some(cats)
  }

  /** A comma-joined list of clean names is read back as exactly that list. */
  lemma {:induction false} CategoryListRoundTrip(cats: seq<string>)
    requires |cats| > 0
    requires forall i :: 0 <= i < |cats| ==> CleanCategory(cats[i])
    ensures CategoryCondition(Text(Join(cats, ','))) == Some(cats)
  {
    var joined := Join(cats, ',');
    assert forall i :: 0 <= i < |cats| ==> ',' !in cats[i];
    SplitJoin(cats, ',');
    assert Split(joined, ',') == cats;
    CleanPiecesKeepsClean(cats);
    JoinOfNonEmptyHead(cats);
    assert Truthy(Text(joined)) && ToText(Text(joined)) == joined;
  }

  /** Pieces are trimmed and stripped one by one and the empty ones dropped:
      "a.,,b$" names the categories "a" and "b". */
  lemma CategoryConditionDropsEmptyPieces(s: string)
    requires s == "a.,,b$"
    ensures CategoryCondition(Text(s)) == Some(["a", "b"])
  {
    var pieces := Split(ToText(Text(s)), ',');
    assert CleanPieces(pieces) == ["a", "b"] by {
      ExamplePieces(s);
      ExampleCleaned(pieces[0], pieces[1], pieces[2]);
      assert pieces == [pieces[0], pieces[1], pieces[2]];
    }
    assert Truthy(Text(s));
  }

  lemma ExamplePieces(s: string)
    requires s == "a.,,b$"
    ensures Split(s, ',') == ["a.", "", "b$"]
  {
    assert s[2] == ',' && ',' !in s[..2];
    assert IndexOfChar(s, ',') == 2;
    assert s[..2] == "a." && s[3..] == ",b$";
    assert IndexOfChar(",b$", ',') == 0;
    assert ",b$"[..0] == "" && ",b$"[1..] == "b$";
    assert ',' !in "b$";
    assert Split("b$", ',') == ["b$"];
    assert Split(",b$", ',') == [""] + ["b$"];
    assert Split(s, ',') == ["a."] + Split(",b$", ',');
  }

  lemma ExampleCleaned(x: string, y: string, z: string)
    requires x == "a." && y == "" && z == "b$"
    ensures CleanPieces([x, y, z]) == ["a", "b"]
  {
    ExampleSanitized(x, y, z);
    CleanPiecesDropsMiddle(x, y, z, "a", "b");
  }

  lemma ExampleSanitized(x: string, y: string, z: string)
    requires x == "a." && y == "" && z == "b$"
    ensures Sanitize(Text(x)) == "a" && Sanitize(Text(y)) == "" && Sanitize(Text(z)) == "b"
  {
    TrimOfTrimmed(x);
    TrimOfTrimmed(z);
    StripOperatorsAppend("a", ".");
    StripOperatorsAppend("b", "$");
  }

  /** Three pieces of which the middle one sanitizes to nothing. */
  lemma CleanPiecesDropsMiddle(x: string, y: string, z: string, a: string, b: string)
    requires Sanitize(Text(x)) == a && a != "" && Sanitize(Text(y)) == "" && Sanitize(Text(z)) == b && b != ""
    ensures CleanPieces([x, y, z]) == [a, b]
  {
    assert [x, y, z] == [x] + ([y] + [z]);
    CleanPiecesAppend([y], [z]);
    CleanPiecesAppend([x], [y] + [z]);
    assert CleanPieces([y] + [z]) == [b];
  }


  lemma {:induction false} JoinOfNonEmptyHead(cats: seq<string>)
    requires |cats| > 0 && cats[0] != ""
    ensures Join(cats, ',') != ""
  {
    if |cats| > 1 {
      assert Join(cats, ',') == cats[0] + [','] + Join(cats[1..], ',');
    } else {
      assert Join(cats, ',') == cats[0];
    }
  }

  // ---------------------------------------------------------------------------
  // Numeric ranges (buildPriceConditions / buildDiscountConditions)
  // ---------------------------------------------------------------------------

  /** A `{ $gte, $lte, $lt, $gt }` condition; absent operators are None. */
  datatype Range = Range(gte: Option<real>, lte: Option<real>, lt: Option<real>, gt: Option<real>)

  const Unbounded: Range := Range(None, None, None, None)

  /** The six query keys of one range filter. */
  datatype RangeKeys = RangeKeys(min: string, max: string, lt: string, lte: string, gt: string, gte: string)

  const PriceKeys: RangeKeys := RangeKeys("minPrice", "maxPrice", "price_lt", "price_lte", "price_gt", "price_gte")
  const DiscountKeys: RangeKeys :=
    RangeKeys("minDiscount", "maxDiscount", "discount_lt", "discount_lte", "discount_gt", "discount_gte")

  function Bound(q: Query, key: string): Option<real> {
    ParseNumber(Get(q, key), None)
  }

  /** The range a query asks for, or None when no bound parsed. The explicit `_lte` and
      `_gte` operators take precedence over the `max` and `min` keys. */
  function RangeOf(q: Query, keys: RangeKeys): (r: Option<Range>)
    ensures r.None? <==>
      Bound(q, keys.min).None? && Bound(q, keys.max).None? && Bound(q, keys.lt).None? &&
      Bound(q, keys.lte).None? && Bound(q, keys.gt).None? && Bound(q, keys.gte).None?
    ensures r.Some? ==> r.value.lt == Bound(q, keys.lt) && r.value.gt == Bound(q, keys.gt)
    ensures r.Some? && Bound(q, keys.lte).Some? ==> r.value.lte == Bound(q, keys.lte)
    ensures r.Some? && Bound(q, keys.lte).None? ==> r.value.lte == Bound(q, keys.max)
    ensures r.Some? && Bound(q, keys.gte).Some? ==> r.value.gte == Bound(q, keys.gte)
    ensures r.Some? && Bound(q, keys.gte).None? ==> r.value.gte == Bound(q, keys.min)
  {
    var lower := if Bound(q, keys.gte).Some? then Bound(q, keys.gte) else Bound(q, keys.min);
    var upper := if Bound(q, keys.lte).Some? then Bound(q, keys.lte) else Bound(q, keys.max);
    var c := Range(lower, upper, Bound(q, keys.lt), Bound(q, keys.gt));
    if c == Unbounded then None else Some(c)
  }

  /** The builder writes the operators one after another into one condition object;
      later writes overwrite earlier ones. */
  method BuildRangeConditions(q: Query, keys: RangeKeys) returns (r: Option<Range>)
    ensures r == RangeOf(q, keys)
  {
    var c := Unbounded;
    var minimum := Bound(q, keys.min);
    var maximum := Bound(q, keys.max);
    if minimum.Some? { c := c.(gte := minimum); }
    if maximum.Some? { c := c.(lte := maximum); }
    var lt := Bound(q, keys.lt);
    var lte := Bound(q, keys.lte);
    var gt := Bound(q, keys.gt);
    var gte := Bound(q, keys.gte);
    if lt.Some? { c := c.(lt := lt); }
    if lte.Some? { c := c.(lte := lte); }
    if gt.Some? { c := c.(gt := gt); }
    if gte.Some? { c := c.(gte := gte); }
    r := if c == Unbounded then None else Some(c);
  }

  // ---------------------------------------------------------------------------
  // The $match document (buildMatchConditions)
  // ---------------------------------------------------------------------------

  /** The value of `$or`: either the case-insensitive search over name and description,
      or "images missing or empty". */
  datatype OrClause = NameOrDescription(pattern: string) | ImagesMissingOrEmpty

  /** `{ stock: { $gt: 0 } }` or `{ stock: { $lte: 0 } }`. */
  datatype StockFilter = StockPositive | StockNonPositive

  /** The `$expr` comparing the string-stored rating, converted to a double. */
  datatype RatingFilter = RatingAtLeast(min: real) | RatingAtMost(max: real) | RatingBetween(low: real, high: real)

  /** The keys of the match document; `imagesPresent` is `images: { $exists, $ne: [] }`. */
  datatype Match = Match(
    or: Option<OrClause>,
    category: Option<seq<string>>,
    price: Option<Range>,
    discount: Option<Range>,
    review: Option<Range>,
    stock: Option<StockFilter>,
    isavailable: Option<bool>,
    imagesPresent: bool,
    rating: Option<RatingFilter>)

  const NoFilter: Match := Match(None, None, None, None, None, None, None, false, None)

  /** `query.categories || query.category`. */
  function CategoryParam(q: Query): QueryValue {
    if Truthy(Get(q, "categories")) then Get(q, "categories") else Get(q, "category")
  }

  /** `match.review`: present when either review bound parsed, with `$gte` from
      `minReview` and `$lte` from `maxReview`. */
  function ReviewRange(q: Query): (r: Option<Range>)
    ensures r.None? <==> Bound(q, "minReview").None? && Bound(q, "maxReview").None?
    ensures r.Some? ==> r.value.gte == Bound(q, "minReview") && r.value.lte == Bound(q, "maxReview")
    ensures r.Some? ==> r.value.lt.None? && r.value.gt.None?
  {
    var lo, hi := Bound(q, "minReview"), Bound(q, "maxReview");
    if lo.None? && hi.None? then None else Some(Range(lo, hi, None, None))
  }

  function StockFilterOf(q: Query): Option<StockFilter> {
    match ParseBoolean(Get(q, "inStock"))
    case Some(true) => Some(StockPositive)
    case Some(false) => Some(StockNonPositive)
    case None => None
  }

  /** The `$expr` on `$toDouble: "$rating"`: present when either rating bound parsed. */
  function RatingFilterOf(q: Query): (r: Option<RatingFilter>)
    ensures r.None? <==> Bound(q, "minRating").None? && Bound(q, "maxRating").None?
  {
    var lo, hi := Bound(q, "minRating"), Bound(q, "maxRating");
    if lo.Some? && hi.Some? then Some(RatingBetween(lo.value, hi.value))
    else if lo.Some? then Some(RatingAtLeast(lo.value))
    else if hi.Some? then Some(RatingAtMost(hi.value))
    else None
  }

  /** A rating passes the `$expr` when it meets every bound the expression holds. */
  predicate RatingAdmits(f: RatingFilter, rating: real) {
    match f
    case RatingAtLeast(lo) => rating >= lo
    case RatingAtMost(hi) => rating <= hi
    case RatingBetween(lo, hi) => lo <= rating && rating <= hi
  }

  /** The rating filter admits exactly the ratings within the bounds that parsed: `$gte`
      for `minRating` and `$lte` for `maxRating`. */
  lemma RatingFilterMeaning(q: Query, rating: real)
    requires RatingFilterOf(q).Some?
    ensures var lo, hi := Bound(q, "minRating"), Bound(q, "maxRating");
      RatingAdmits(RatingFilterOf(q).value, rating) <==>
        (lo.Some? ==> rating >= lo.value) && (hi.Some? ==> rating <= hi.value)
  {
  }

  /** `$or`: hasImages=false writes it last, replacing a text search. */
  function OrClauseOf(q: Query): Option<OrClause> {
    if ParseBoolean(Get(q, "hasImages")) == Some(false) then Some(ImagesMissingOrEmpty)
    else
      match TextSearch(Get(q, "q"))
      case Some(p) => Some(NameOrDescription(p))
      case None => None
  }

  /** The whole match document, key by key. */
  function MatchOf(q: Query): (m: Match)
    ensures m.or == Some(ImagesMissingOrEmpty) <==> ParseBoolean(Get(q, "hasImages")) == Some(false)
    ensures m.imagesPresent ==> m.or != Some(ImagesMissingOrEmpty)
    ensures m.category.Some? ==> Truthy(CategoryParam(q))
  {
    Match(
      OrClauseOf(q),
      CategoryCondition(CategoryParam(q)),
      RangeOf(q, PriceKeys),
      RangeOf(q, DiscountKeys),
      ReviewRange(q),
      StockFilterOf(q),
      ParseBoolean(Get(q, "isavailable")),
      ParseBoolean(Get(q, "hasImages")) == Some(true),
      RatingFilterOf(q))
  }

  /** The builder fills the match document key by key, in the source's order. */
  method BuildMatchConditions(q: Query) returns (m: Match)
    ensures m == MatchOf(q)
  {
    var or: Option<OrClause> := None;
    var search := TextSearch(Get(q, "q"));
    if search.Some? { or := Some(NameOrDescription(search.value)); }
    var categories := CategoryCondition(CategoryParam(q));
    var price := BuildRangeConditions(q, PriceKeys);
    var discount := BuildRangeConditions(q, DiscountKeys);
    var review: Option<Range> := None;
    var minReview, maxReview := Bound(q, "minReview"), Bound(q, "maxReview");
    if minReview.Some? || maxReview.Some? {
      var r := Unbounded;
      if minReview.Some? { r := r.(gte := minReview); }
      if maxReview.Some? { r := r.(lte := maxReview); }
      review := Some(r);
    }
    assert review == ReviewRange(q);
    var stock: Option<StockFilter> := None;
    var stockStatus := ParseBoolean(Get(q, "inStock"));
    if stockStatus == Some(true) { stock := Some(StockPositive); }
    else if stockStatus == Some(false) { stock := Some(StockNonPositive); }
    assert stock == StockFilterOf(q);
    var availability := ParseBoolean(Get(q, "isavailable"));
    var imagesPresent := false;
    var hasImages := ParseBoolean(Get(q, "hasImages"));
    if hasImages == Some(true) { imagesPresent := true; }
    else if hasImages == Some(false) { or := Some(ImagesMissingOrEmpty); }
    assert or == OrClauseOf(q);
    var rating: Option<RatingFilter> := None;
    var minRating, maxRating := Bound(q, "minRating"), Bound(q, "maxRating");
    if minRating.Some? || maxRating.Some? {
      var expressions: seq<RatingFilter> := [];
      if minRating.Some? { expressions := expressions + [RatingAtLeast(minRating.value)]; }
      if maxRating.Some? { expressions := expressions + [RatingAtMost(maxRating.value)]; }
      if |expressions| == 1 {
        rating := Some(expressions[0]);
      } else {
        rating := Some(RatingBetween(minRating.value, maxRating.value));
      }
    }
    assert rating == RatingFilterOf(q);
    m := Match(or, categories, price, discount, review, stock, availability, imagesPresent, rating);
  }

  /** hasImages=false replaces any text search in `$or`; hasImages=true adds the
      non-empty-images condition and leaves `$or` to the search. */
  lemma HasImagesAndSearch(q: Query)
    ensures ParseBoolean(Get(q, "hasImages")) == Some(false) ==>
      MatchOf(q).or == Some(ImagesMissingOrEmpty) && !MatchOf(q).imagesPresent
    ensures ParseBoolean(Get(q, "hasImages")) != Some(false) && TextSearch(Get(q, "q")).Some? ==>
      MatchOf(q).or == Some(NameOrDescription(TextSearch(Get(q, "q")).value))
    ensures MatchOf(q).imagesPresent <==> ParseBoolean(Get(q, "hasImages")) == Some(true)
  {
  }

  /** inStock=true filters on stock > 0, inStock=false on stock <= 0, anything else adds
      no stock condition. */
  lemma InStockFilter(q: Query)
    ensures MatchOf(q).stock == Some(StockPositive) <==> ParseBoolean(Get(q, "inStock")) == Some(true)
    ensures MatchOf(q).stock == Some(StockNonPositive) <==> ParseBoolean(Get(q, "inStock")) == Some(false)
    ensures MatchOf(q).stock == None <==> ParseBoolean(Get(q, "inStock")) == None
  {
  }

  /** An empty query filters nothing, so the pipeline gets no `$match` stage. */
  lemma EmptyQueryFiltersNothing(q: Query)
    requires q == map[]
    ensures MatchOf(q) == NoFilter
  {
  }

  // ---------------------------------------------------------------------------
  // Ordered objects: the sort and projection documents
  // ---------------------------------------------------------------------------

  /** A JavaScript object with string keys, in key order. */
  type Entry = (string, int)

  function Keys(obj: seq<Entry>): (ks: seq<string>)
    ensures |ks| == |obj|
  {
    if obj == [] then [] else [obj[0].0] + Keys(obj[1..])
  }

  predicate Distinct(ks: seq<string>) {
    forall i, j :: 0 <= i < j < |ks| ==> ks[i] != ks[j]
  }

  /** `obj[k]`, or None when `k` is not a key. */
  function ValueAt(obj: seq<Entry>, k: string): (r: Option<int>)
    ensures r.None? <==> k !in Keys(obj)
  {
    if obj == [] then None else if obj[0].0 == k then Some(obj[0].1) else ValueAt(obj[1..], k)
  }

  /** `obj[k] = v`: an existing key keeps its place and takes the new value, a new key
      goes last. */
  function Assign(obj: seq<Entry>, k: string, v: int): (r: seq<Entry>)
    ensures k in Keys(obj) ==> Keys(r) == Keys(obj)
    ensures k !in Keys(obj) ==> Keys(r) == Keys(obj) + [k]
    ensures ValueAt(r, k) == Some(v)
    ensures forall k' :: k' != k ==> ValueAt(r, k') == ValueAt(obj, k')
    ensures obj != [] && obj[0].0 != k ==> r[0] == obj[0]
  {
    if obj == [] then [(k, v)]
    else if obj[0].0 == k then [(k, v)] + obj[1..]
    else [obj[0]] + Assign(obj[1..], k, v)
  }

  /** Assigning keeps keys distinct. */
  lemma AssignDistinct(obj: seq<Entry>, k: string, v: int)
    requires Distinct(Keys(obj))
    ensures Distinct(Keys(Assign(obj, k, v)))
  {
  }

  /** The comma-separated pieces, each trimmed, with the empty ones dropped. */
  function TrimmedPieces(parts: seq<string>): (r: seq<string>)
    ensures forall i :: 0 <= i < |r| ==> r[i] != ""
  {
    if parts == [] then []
    else
      var t := Trim(parts[0]);
      (if t == "" then [] else [t]) + TrimmedPieces(parts[1..])
  }

  function Pieces(v: QueryValue): seq<string> {
    TrimmedPieces(Split(ToText(v), ','))
  }

  // ---------------------------------------------------------------------------
  // buildSortObject
  // ---------------------------------------------------------------------------

  const NewestFirst: seq<Entry> := [("createdAt", -1)]

  function SortField(part: string): string {
    if |part| > 0 && part[0] == '-' then part[1..] else part
  }

  function SortDirection(part: string): int {
    if |part| > 0 && part[0] == '-' then -1 else 1
  }

  /** One iteration of the sort loop: an allow-listed field, with any leading '-' removed,
      is assigned -1 for a leading '-' and 1 otherwise; any other piece is skipped. */
  function SortStep(obj: seq<Entry>, part: string): seq<Entry> {
    if SortField(part) in AllowedSortFields then Assign(obj, SortField(part), SortDirection(part)) else obj
  }

  /** The sort object built from the pieces, before the fallback. */
  function SortFold(parts: seq<string>): seq<Entry> {
    if parts == [] then [] else SortStep(SortFold(parts[..|parts| - 1]), parts[|parts| - 1])
  }

  /** What `buildSortObject(v)` returns. */
  function SortOf(v: QueryValue): (r: seq<Entry>)
    ensures r != []
    ensures !Truthy(v) ==> r == NewestFirst
  {
    if !Truthy(v) then NewestFirst
    else
      var s := SortFold(Pieces(v));
      if s == [] then NewestFirst else s
  }

  method BuildSortObject(v: QueryValue) returns (sort: seq<Entry>)
    ensures sort == SortOf(v)
  {
    if !Truthy(v) {
      return NewestFirst;
    }
    var parts := Pieces(v);
    sort := [];
    var i := 0;
    while i < |parts|
      invariant 0 <= i <= |parts|
      invariant sort == SortFold(parts[..i])
    {
      sort := SortStep(sort, parts[i]);
      SortFoldSnoc(parts, i);
      i := i + 1;
    }
    assert parts[..|parts|] == parts;
    if sort == [] {
      sort := NewestFirst;
    }
  }

  lemma SortFoldSnoc(parts: seq<string>, i: nat)
    requires i < |parts|
    ensures SortFold(parts[..i + 1]) == SortStep(SortFold(parts[..i]), parts[i])
  {
    assert parts[..i + 1][..i] == parts[..i];
  }

  /** The direction the last piece naming `f` asks for. */
  function LastDirection(parts: seq<string>, f: string): Option<int> {
    if parts == [] then None
    else if SortField(parts[|parts| - 1]) == f then Some(SortDirection(parts[|parts| - 1]))
    else LastDirection(parts[..|parts| - 1], f)
  }

  /** The fold keeps only allow-listed fields, each once, each with direction 1 or -1,
      and each with the direction of the last piece that names it. */
  lemma {:induction false} SortFoldMeaning(parts: seq<string>)
    ensures Distinct(Keys(SortFold(parts)))
    ensures forall k :: k in Keys(SortFold(parts)) ==> k in AllowedSortFields
    ensures forall f :: f in AllowedSortFields ==> ValueAt(SortFold(parts), f) == LastDirection(parts, f)
    ensures forall f :: ValueAt(SortFold(parts), f).Some? ==> ValueAt(SortFold(parts), f).value in {1, -1}
  {
    if parts != [] {
      var prefix := parts[..|parts| - 1];
      SortFoldMeaning(prefix);
      var part := parts[|parts| - 1];
      if SortField(part) in AllowedSortFields {
        AssignDistinct(SortFold(prefix), SortField(part), SortDirection(part));
      }
    }
  }

  /** The fold is empty exactly when no piece names an allow-listed field. */
  lemma SortFoldEmpty(parts: seq<string>)
    ensures SortFold(parts) == [] <==> forall f :: f in AllowedSortFields ==> LastDirection(parts, f).None?
  {
    SortFoldMeaning(parts);
    var s := SortFold(parts);
    if s != [] {
      assert s[0].0 in Keys(s);
      assert ValueAt(s, s[0].0).Some?;
    }
  }

  /** An absent sort, or one that names no allow-listed field, means newest first. */
  lemma SortFallsBackToNewestFirst(v: QueryValue)
    requires !Truthy(v) || forall f :: f in AllowedSortFields ==> LastDirection(Pieces(v), f).None?
    ensures SortOf(v) == NewestFirst
  {
    if Truthy(v) {
      SortFoldEmpty(Pieces(v));
    }
  }

  // ---------------------------------------------------------------------------
  // buildProjection
  // ---------------------------------------------------------------------------

  const IdHidden: seq<Entry> := [("_id", 0)]

  /** One iteration of the projection loop: an allow-listed field is assigned 1. */
  function ProjectionStep(p: seq<Entry>, f: string): seq<Entry> {
    if f in AllowedProjectionFields then Assign(p, f, 1) else p
  }

  function ProjectionFold(fields: seq<string>): seq<Entry> {
    if fields == [] then IdHidden
    else ProjectionStep(ProjectionFold(fields[..|fields| - 1]), fields[|fields| - 1])
  }

  lemma ProjectionFoldSnoc(fields: seq<string>, i: nat)
    requires i < |fields|
    ensures ProjectionFold(fields[..i + 1]) == ProjectionStep(ProjectionFold(fields[..i]), fields[i])
  {
    assert fields[..i + 1][..i] == fields[..i];
  }

  /** What `buildProjection(v)` returns. */
  function ProjectionOf(v: QueryValue): (r: seq<Entry>)
    ensures !Truthy(v) ==> r == IdHidden
    ensures Truthy(v) ==> ValueAt(r, "productid") == Some(1)
  {
    if !Truthy(v) then IdHidden else Assign(ProjectionFold(Pieces(v)), "productid", 1)
  }

  method BuildProjection(v: QueryValue) returns (projection: seq<Entry>)
    ensures projection == ProjectionOf(v)
  {
    projection := IdHidden;
    if !Truthy(v) {
      return;
    }
    var fields := Pieces(v);
    var i := 0;
    while i < |fields|
      invariant 0 <= i <= |fields|
      invariant projection == ProjectionFold(fields[..i])
    {
      projection := ProjectionStep(projection, fields[i]);
      ProjectionFoldSnoc(fields, i);
      i := i + 1;
    }
    assert fields[..|fields|] == fields;
    projection := Assign(projection, "productid", 1);
  }

  lemma {:induction false} ProjectionFoldMeaning(fields: seq<string>)
    ensures |ProjectionFold(fields)| >= 1 && ProjectionFold(fields)[0] == ("_id", 0)
    ensures forall k :: k != "_id" ==>
      (ValueAt(ProjectionFold(fields), k).Some? <==> k in AllowedProjectionFields && k in fields)
    ensures forall k :: k != "_id" && ValueAt(ProjectionFold(fields), k).Some? ==> ValueAt(ProjectionFold(fields), k) == Some(1)
    ensures "productid" !in Keys(ProjectionFold(fields))
  {
    if fields != [] {
      var prefix, f := fields[..|fields| - 1], fields[|fields| - 1];
      ProjectionFoldMeaning(prefix);
      assert fields == prefix + [f];
      if f in AllowedProjectionFields {
        assert f != "productid" by { ProductIdNotProjectable(f); }
      }
    }
  }

  lemma ProductIdNotProjectable(f: string)
    requires f in AllowedProjectionFields
    ensures f != "productid"
  {
    var i :| 0 <= i < |AllowedProjectionFields| && AllowedProjectionFields[i] == f;
    assert |AllowedProjectionFields[i]| != 9 || AllowedProjectionFields[i][0] != 'p';
  }

  /** The projection always hides `_id`; with a field list it shows exactly the listed
      allow-listed fields plus `productid`, and only then has more than one key, which
      is when the pipeline applies it. */
  lemma ProjectionMeaning(v: QueryValue)
    ensures ProjectionOf(v)[0] == ("_id", 0)
    ensures |ProjectionOf(v)| > 1 <==> Truthy(v)
    ensures Truthy(v) ==> ValueAt(ProjectionOf(v), "productid") == Some(1)
    ensures forall k :: k != "_id" && k != "productid" ==>
      (ValueAt(ProjectionOf(v), k) == Some(1) <==> Truthy(v) && k in AllowedProjectionFields && k in Pieces(v))
  {
    if Truthy(v) {
      ProjectionFoldMeaning(Pieces(v));
    }
  }

  // ---------------------------------------------------------------------------
  // Paging and the pipeline of getProducts
  // ---------------------------------------------------------------------------

  function Max(a: real, b: real): real { if a >= b then a else b }
  function Min(a: real, b: real): real { if a <= b then a else b }

  /** The requested page: parsed with default 1, and at least 1. */
  function PageOf(q: Query): (page: real)
    ensures page >= 1.0
    ensures Get(q, "page") == Undefined ==> page == 1.0
    ensures var n := ParseNumber(Get(q, "page"), Some(1.0));
      n.Some? && (n.value >= 1.0 ==> page == n.value) && (n.value < 1.0 ==> page == 1.0)
  {
    Max(1.0, ParseNumber(Get(q, "page"), Some(1.0)).value)
  }

  /** The page size: parsed with default 20, then clamped to [1, 100]. */
  function LimitOf(q: Query): (limit: real)
    ensures 1.0 <= limit <= MaxLimit
    ensures Get(q, "limit") == Undefined ==> limit == DefaultLimit
    ensures var n := ParseNumber(Get(q, "limit"), Some(DefaultLimit));
      n.Some? && (1.0 <= n.value <= MaxLimit ==> limit == n.value) && (n.value < 1.0 ==> limit == 1.0) &&
      (n.value > MaxLimit ==> limit == MaxLimit)
  {
    Min(MaxLimit, Max(1.0, ParseNumber(Get(q, "limit"), Some(DefaultLimit)).value))
  }

  /** `?page=N` for a decimal numeral N asks for page N, and `?page=0` for the first. */
  lemma PageOfNumeral(q: Query, n: nat)
    requires Get(q, "page") == Text(NatToDecimal(n))
    ensures PageOf(q) == if n == 0 then 1.0 else n as real
  {
    ParseNumberOfNumeral(n, Some(1.0));
  }

  /** `?limit=N` for a decimal numeral N gives N pages within [1, 100], and the nearer
      end of that range otherwise. */
  lemma LimitOfNumeral(q: Query, n: nat)
    requires Get(q, "limit") == Text(NatToDecimal(n))
    ensures LimitOf(q) == if n == 0 then 1.0 else if n > 100 then MaxLimit else n as real
  {
    ParseNumberOfNumeral(n, Some(DefaultLimit));
  }

  /** The number of items before the page: (page - 1) times the page size, never negative. */
  function SkipOf(page: real, limit: real): (skip: real)
    requires page >= 1.0 && limit >= 1.0
    ensures skip >= 0.0
  {
    (page - 1.0) * limit
  }

  /** `Math.ceil(x)` for x >= 0. */
  function Ceil(x: real): (n: int)
    requires x >= 0.0
    ensures n >= 0 && x <= n as real < x + 1.0
  {
    if x == x.Floor as real then x.Floor else x.Floor + 1
  }

  /** The page count, total / limit rounded up: the fewest pages of `limit` that hold `total` items. */
  function TotalPages(total: nat, limit: real): (pages: nat)
    requires limit >= 1.0
    ensures total as real <= pages as real * limit
    ensures pages > 0 ==> (pages - 1) as real * limit < total as real
    ensures total == 0 <==> pages == 0
  {
    CeilScaled(total, limit);
    Ceil(total as real / limit)
  }

  /** Scaling the bounds of `Ceil` by a positive page size. */
  lemma {:induction false} CeilScaled(total: nat, limit: real)
    requires limit >= 1.0
    ensures total as real <= Ceil(total as real / limit) as real * limit
    ensures Ceil(total as real / limit) > 0 ==> (Ceil(total as real / limit) - 1) as real * limit < total as real
  {
    var x := total as real / limit;
    assert x * limit == total as real;
    var n := Ceil(x);
    ScaledUp(total as real, limit, x, n);
    ScaledDown(total as real, limit, x, n);
  }

  /** A quotient rounded up, multiplied back, covers the dividend. */
  lemma ScaledUp(t: real, l: real, x: real, n: int)
    requires l > 0.0 && x * l == t && x <= n as real
    ensures t <= n as real * l
  {
  }

  /** One less than that falls short of the dividend. */
  lemma ScaledDown(t: real, l: real, x: real, n: int)
    requires l > 0.0 && x * l == t && (n - 1) as real < x
    ensures (n - 1) as real * l < t
  {
  }

  datatype DataStage = Project(fields: seq<Entry>) | Skip(count: real) | Limit(count: real)

  datatype Stage = MatchStage(filter: Match) | SortStage(order: seq<Entry>) | FacetStage(data: seq<DataStage>) | FlattenMetadata

  /** The `$facet.data` stages: the projection first when it has more than one key. */
  function DataStages(projection: seq<Entry>, skip: real, limit: real): seq<DataStage> {
    (if |projection| > 1 then [Project(projection)] else []) + [Skip(skip), Limit(limit)]
  }

  /** The aggregation: `$match` only when some filter was set, then `$sort`, `$facet` and
      the metadata flattening. */
  function Pipeline(filter: Match, order: seq<Entry>, data: seq<DataStage>): (p: seq<Stage>)
    ensures |p| == (if filter == NoFilter then 3 else 4)
    ensures filter != NoFilter ==> p[0] == MatchStage(filter)
    ensures p[|p| - 3] == SortStage(order) && p[|p| - 2] == FacetStage(data) && p[|p| - 1] == FlattenMetadata
  {
    (if filter == NoFilter then [] else [MatchStage(filter)]) + [SortStage(order), FacetStage(data), FlattenMetadata]
  }

  /** The pipeline a query asks for. */
  function PipelineOf(q: Query): (p: seq<Stage>)
    ensures |p| == (if MatchOf(q) == NoFilter then 3 else 4)
    ensures p[|p| - 1] == FlattenMetadata && p[|p| - 2].FacetStage? && p[|p| - 3] == SortStage(SortOf(Get(q, "sort")))
  {
    Pipeline(MatchOf(q), SortOf(Get(q, "sort")),
      DataStages(ProjectionOf(Get(q, "fields")), SkipOf(PageOf(q), LimitOf(q)), LimitOf(q)))
  }

  /** `getProducts` up to the database call: the page window and the pipeline. */
  method BuildPipeline(q: Query) returns (page: real, limit: real, pipeline: seq<Stage>)
    ensures page == PageOf(q) && limit == LimitOf(q)
    ensures pipeline == PipelineOf(q)
  {
    page := PageOf(q);
    limit := LimitOf(q);
    var skip := SkipOf(page, limit);
    var matchConditions := BuildMatchConditions(q);
    var sortObject := BuildSortObject(Get(q, "sort"));
    var projection := BuildProjection(Get(q, "fields"));
    var prefix: seq<Stage> := [];
    if matchConditions != NoFilter {
      prefix := [MatchStage(matchConditions)];
    }
    var data := [Skip(skip), Limit(limit)];
    if |projection| > 1 {
      data := [Project(projection)] + data;
    }
    assert data == DataStages(projection, skip, limit);
    pipeline := prefix + [SortStage(sortObject), FacetStage(data), FlattenMetadata];
  }

  /** Every pipeline sorts, facets and flattens, in that order, after an optional `$match`
      that is present exactly when some filter is set; the facet pages last, and projects
      first exactly when the projection has more than one key. */
  lemma StagesShape(filter: Match, order: seq<Entry>, projection: seq<Entry>, skip: real, limit: real)
    ensures var p := Pipeline(filter, order, DataStages(projection, skip, limit));
      (|p| == 4 <==> filter != NoFilter) && (|p| == 3 <==> filter == NoFilter) &&
      p[|p| - 1] == FlattenMetadata && p[|p| - 3] == SortStage(order) &&
      p[|p| - 2] == FacetStage(DataStages(projection, skip, limit))
    ensures var data := DataStages(projection, skip, limit);
      |data| >= 2 && data[|data| - 2] == Skip(skip) && data[|data| - 1] == Limit(limit) &&
      (data[0].Project? <==> |projection| > 1)
  {
  }

  /** For a query: the facet skips a non-negative count, takes between 1 and 100, and
      projects exactly when fields were asked for. */
  lemma PipelineShape(q: Query)
    ensures var p := PipelineOf(q);
      (|p| == 4 <==> MatchOf(q) != NoFilter) && (|p| == 3 <==> MatchOf(q) == NoFilter) &&
      p[|p| - 1] == FlattenMetadata && p[|p| - 3] == SortStage(SortOf(Get(q, "sort"))) &&
      p[|p| - 2].FacetStage?
    ensures var data := PipelineOf(q)[|PipelineOf(q)| - 2].data;
      |data| >= 2 && data[|data| - 2].Skip? && data[|data| - 2].count >= 0.0 &&
      data[|data| - 1].Limit? && 1.0 <= data[|data| - 1].count <= MaxLimit &&
      (data[0].Project? <==> Truthy(Get(q, "fields")))
  {
    var filter, order, projection := MatchOf(q), SortOf(Get(q, "sort")), ProjectionOf(Get(q, "fields"));
    var limit := LimitOf(q);
    var skip := SkipOf(PageOf(q), limit);
    assert PipelineOf(q) == Pipeline(filter, order, DataStages(projection, skip, limit));
    StagesShape(filter, order, projection, skip, limit);
    ProjectionMeaning(Get(q, "fields"));
  }

  /** An empty query: no `$match`, newest first, the first 20 products, no projection. */
  lemma EmptyQueryPipeline(q: Query)
    requires q == map[]
    ensures PipelineOf(q) == [SortStage(NewestFirst), FacetStage([Skip(0.0), Limit(DefaultLimit)]), FlattenMetadata]
  {
    EmptyQueryFiltersNothing(q);
    assert Get(q, "sort") == Undefined && Get(q, "fields") == Undefined;
    assert PageOf(q) == 1.0 && LimitOf(q) == DefaultLimit;
    assert SkipOf(PageOf(q), LimitOf(q)) == 0.0;
    assert ProjectionOf(Get(q, "fields")) == IdHidden;
    assert SortOf(Get(q, "sort")) == NewestFirst;
    assert DataStages(IdHidden, 0.0, DefaultLimit) == [Skip(0.0), Limit(DefaultLimit)];
    assert PipelineOf(q) == Pipeline(NoFilter, NewestFirst, [Skip(0.0), Limit(DefaultLimit)]);
  }

  // ---------------------------------------------------------------------------
  // getProductById
  // ---------------------------------------------------------------------------

  datatype ProductReply = ProductReply(status: int, product: Option<Product>)

  /** The lookup by id: an id that sanitizes to '' is 400; the human-facing `productid`
      is tried first; a valid storage id is tried only when that misses; otherwise 404. */
  function GetProductById(products: map<ObjectId, Product>, rawId: string): (r: ProductReply)
    requires UniqueCodes(products)
    ensures r.status == 200 || r.status == 400 || r.status == 404
    ensures r.status == 200 <==> r.product.Some?
    ensures r.status == 400 <==> Sanitize(Text(rawId)) == ""
    ensures var id := Sanitize(Text(rawId));
      id != "" && FindByCode(products, id).Some? ==> r.product == Some(products[FindByCode(products, id).value])
    ensures var id := Sanitize(Text(rawId));
      r.status == 404 <==>
        id != "" && FindByCode(products, id).None? && !(IsValidObjectId(id) && CanonicalId(id) in products)
    ensures var id := Sanitize(Text(rawId));
      r.status == 200 ==>
        r.product.value.productid == id || (IsValidObjectId(id) && r.product == Some(products[CanonicalId(id)]))
  {
    var id := Sanitize(Text(rawId));
    if id == "" then ProductReply(400, None)
    else
      match FindByCode(products, id)
      case Some(k) => ProductReply(200, Some(products[k]))
      case None =>
        if IsValidObjectId(id) && CanonicalId(id) in products then ProductReply(200, Some(products[CanonicalId(id)]))
        else ProductReply(404, None)
  }
}
