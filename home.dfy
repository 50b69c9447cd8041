/** The storefront's home page: how the categories response is normalised into a list of
    categories, and how many categories and products each section shows. */
module Home {
  import opened Js

  // ---------------------------------------------------------------------------
  // Response bodies
  // ---------------------------------------------------------------------------

  /** A parsed JSON value. */
  datatype Json =
    | JNull
    | JBool(b: bool)
    | JNum(n: real)
    | JStr(s: string)
    | JArr(items: seq<Json>)
    | JObj(fields: map<string, Json>)

  /** JavaScript truthiness of a JSON value. */
  predicate Truthy(j: Json) {
    match j
    case JNull => false
    case JBool(b) => b
    case JNum(n) => n != 0.0
    case JStr(s) => s != ""
    case JArr(_) => true
    case JObj(_) => true
  }

  /** Reading property `key` of a non-null value: an object's field when it has one, else
      undefined (None). Reading a property of null throws, so callers rule it out. */
  function Prop(j: Json, key: string): (r: Option<Json>)
    requires j != JNull
    ensures r.Some? <==> j.JObj? && key in j.fields
    ensures r.Some? ==> r.value == j.fields[key]
  {
    if j.JObj? && key in j.fields then Some(j.fields[key]) else None
  }

  /** Truthiness of a possibly undefined value. */
  predicate Present(v: Option<Json>) {
    v.Some? && Truthy(v.value)
  }

  // ---------------------------------------------------------------------------
  // Distinct categories
  // ---------------------------------------------------------------------------

  /** Where `v` first occurs in `xs`, or `|xs|`. */
  function FirstIndex(xs: seq<Option<Json>>, v: Json): (i: nat)
    ensures i <= |xs|
    ensures i < |xs| ==> xs[i] == Some(v)
    ensures forall k :: 0 <= k < i ==> xs[k] != Some(v)
  {
    if xs == [] then 0 else if xs[0] == Some(v) then 0 else 1 + FirstIndex(xs[1..], v)
  }

  /** The distinct truthy values among `xs`, each where it first occurs: the set built from
      the values, then filtered by truthiness. */
  function DistinctTruthy(xs: seq<Option<Json>>): (r: seq<Json>)
    ensures |r| <= |xs|
    ensures forall i :: 0 <= i < |r| ==> Truthy(r[i]) && Some(r[i]) in xs
  {
    if xs == [] then []
    else
      var d := DistinctTruthy(xs[..|xs| - 1]);
      var last := xs[|xs| - 1];
      if Present(last) && last.value !in d then d + [last.value] else d
  }

  /** The normalised list holds each truthy value of the input and nothing else. */
  lemma {:induction false} DistinctTruthyMembers(xs: seq<Option<Json>>)
    ensures forall v :: v in DistinctTruthy(xs) <==> Truthy(v) && Some(v) in xs
    decreases |xs|
  {
    if xs != [] {
      var init := xs[..|xs| - 1];
      DistinctTruthyMembers(init);
      assert xs == init + [xs[|xs| - 1]];
    }
  }

  /** No value appears twice in `r`. */
  predicate NoRepeats(r: seq<Json>) {
    forall i, j :: 0 <= i < j < |r| ==> r[i] != r[j]
  }

  /** No value appears twice in the normalised list. */
  lemma {:induction false} DistinctTruthyDistinct(xs: seq<Option<Json>>)
    ensures NoRepeats(DistinctTruthy(xs))
    decreases |xs|
  {
    if xs != [] {
      var d := DistinctTruthy(xs[..|xs| - 1]);
      var last := xs[|xs| - 1];
      DistinctTruthyDistinct(xs[..|xs| - 1]);
      if Present(last) && last.value !in d {
        var r := d + [last.value];
        forall i, j | 0 <= i < j < |r|
          ensures r[i] != r[j]
        {
          assert r[i] == d[i] && d[i] in d;
          if j == |d| {
            assert r[j] == last.value;
          } else {
            assert r[j] == d[j];
          }
        }
      }
    }
  }

  /** The values of `r` occur in `xs` in the order of `r`, judged by first occurrence. */
  predicate InFirstOccurrenceOrder(r: seq<Json>, xs: seq<Option<Json>>) {
    forall i, j :: 0 <= i < j < |r| ==> FirstIndex(xs, r[i]) < FirstIndex(xs, r[j])
  }

  /** The normalised list keeps the order in which the values first occur. */
  lemma {:induction false} DistinctTruthyOrder(xs: seq<Option<Json>>)
    ensures InFirstOccurrenceOrder(DistinctTruthy(xs), xs)
    decreases |xs|
  {
    if xs != [] {
      var n := |xs| - 1;
      var init := xs[..n];
      var last := xs[n];
      assert xs == init + [last];
      DistinctTruthyOrder(init);
      DistinctTruthyMembers(init);
      var d := DistinctTruthy(init);
      if Present(last) && last.value !in d {
        var r := d + [last.value];
        assert Some(last.value) !in init;
        FirstIndexOfPrefix(init, last, last.value);
        forall i, j | 0 <= i < j < |r|
          ensures FirstIndex(xs, r[i]) < FirstIndex(xs, r[j])
        {
          assert r[i] == d[i] && d[i] in d && Some(d[i]) in init;
          FirstIndexOfPrefix(init, last, d[i]);
          if j < |d| {
            assert r[j] == d[j] && d[j] in d && Some(d[j]) in init;
            FirstIndexOfPrefix(init, last, d[j]);
          }
        }
      } else {
        forall i, j | 0 <= i < j < |d|
          ensures FirstIndex(xs, d[i]) < FirstIndex(xs, d[j])
        {
          assert d[i] in d && d[j] in d && Some(d[i]) in init && Some(d[j]) in init;
          FirstIndexOfPrefix(init, last, d[i]);
          FirstIndexOfPrefix(init, last, d[j]);
        }
      }
    }
  }

  /** Extending a list at the end does not move a first occurrence found before the end. */
  lemma {:induction false} FirstIndexOfPrefix(init: seq<Option<Json>>, last: Option<Json>, v: Json)
    ensures Some(v) in init ==> FirstIndex(init + [last], v) == FirstIndex(init, v)
    ensures Some(v) !in init && last == Some(v) ==> FirstIndex(init + [last], v) == |init|
    decreases |init|
  {
    if init == [] {
      assert init + [last] == [last];
    } else {
      assert (init + [last])[1..] == init[1..] + [last];
      FirstIndexOfPrefix(init[1..], last, v);
      if Some(v) in init && init[0] != Some(v) {
        assert Some(v) in init[1..];
      }
    }
  }

  /** A value that does not occur is first found at the end. */
  lemma FirstIndexOfAbsent(xs: seq<Option<Json>>, v: Json)
    requires Some(v) !in xs
    ensures FirstIndex(xs, v) == |xs|
  {
  }

  // ---------------------------------------------------------------------------
  // The categories response
  // ---------------------------------------------------------------------------

  /** What the response does to the categories state: nothing, or a new list. */
  datatype Update = Keep | SetTo(list: seq<Json>)

  /** The outcome of the categories request: the parsed body, or a failed request. */
  datatype CategoriesReply = Failed | Body(data: Json)

  /** The `category` of each element of `items`, none of which is null. */
  function Categories(items: seq<Json>): (r: seq<Option<Json>>)
    requires forall i :: 0 <= i < |items| ==> items[i] != JNull
    ensures |r| == |items|
    ensures forall i :: 0 <= i < |items| ==> r[i] == Prop(items[i], "category")
  {
    seq(|items|, i requires 0 <= i < |items| => Prop(items[i], "category"))
  }

  /** `fetchCategories`, deciding the new categories list:
      - a failed request, or a response that cannot be read, gives [];
      - an array body is the list;
      - otherwise a truthy `data` array whose first element is a string is the list;
      - a truthy `data` array whose first element has a truthy `category` gives the distinct
        truthy categories of its elements (a null element makes this throw, giving []);
      - any other `data` array, the empty one included, leaves the list as it was;
      - without a `data` array, a truthy `categories` array is the list, and anything else
        gives []. */
  function NormalizeCategories(reply: CategoriesReply): (u: Update)
    ensures reply.Failed? ==> u == SetTo([])
    ensures reply.Body? && reply.data.JArr? ==> u == SetTo(reply.data.items)
    ensures u.Keep? ==>
      reply.Body? && reply.data != JNull && Present(Prop(reply.data, "data")) && Prop(reply.data, "data").value.JArr?
  {
    if reply.Failed? then SetTo([])
    else
      var body := reply.data;
      if body.JArr? then SetTo(body.items)
      else if body == JNull then SetTo([])
      else
        var data := Prop(body, "data");
        if Present(data) && data.value.JArr? then
          var items := data.value.items;
          if |items| > 0 && items[0].JStr? then SetTo(items)
          else if |items| > 0 && items[0] == JNull then SetTo([])
          else if |items| > 0 && Present(Prop(items[0], "category")) then
            if exists i :: 0 <= i < |items| && items[i] == JNull then SetTo([])
            else SetTo(DistinctTruthy(Categories(items)))
          else Keep
        else
          var cats := Prop(body, "categories");
          if Present(cats) && cats.value.JArr? then SetTo(cats.value.items)
          else SetTo([])
  }

  /** An array body, a string `data` array or a `categories` array is used unchanged. */
  lemma ListsUsedAsGiven(items: seq<Json>, fields: map<string, Json>)
    ensures NormalizeCategories(Body(JArr(items))) == SetTo(items)
    ensures |items| > 0 && items[0].JStr? ==>
      NormalizeCategories(Body(JObj(map["data" := JArr(items)]))) == SetTo(items)
    ensures "data" !in fields ==>
      NormalizeCategories(Body(JObj(fields["categories" := JArr(items)]))) == SetTo(items)
  {
  }

  /** An empty `data` array leaves the current categories in place. */
  lemma EmptyDataKeepsCategories(fields: map<string, Json>)
    ensures NormalizeCategories(Body(JObj(fields["data" := JArr([])]))) == Keep
  {
  }

  /** A failed request, a null body and a body of no known shape all clear the list. */
  lemma UnknownShapesClear(fields: map<string, Json>)
    requires "data" !in fields && "categories" !in fields
    ensures NormalizeCategories(Failed) == SetTo([])
    ensures NormalizeCategories(Body(JNull)) == SetTo([])
    ensures NormalizeCategories(Body(JObj(fields))) == SetTo([])
    ensures NormalizeCategories(Body(JStr("categories"))) == SetTo([])
  {
  }

  /** For a `data` array of products whose first product has a category, the list holds
      every truthy category exactly once, in the order the categories first appear. */
  lemma {:induction false} ProductCategoriesDistinct(items: seq<Json>)
    requires |items| > 0 && !items[0].JStr? && items[0] != JNull && Present(Prop(items[0], "category"))
    requires forall i :: 0 <= i < |items| ==> items[i] != JNull
    ensures var u := NormalizeCategories(Body(JObj(map["data" := JArr(items)])));
      u.SetTo? &&
      (forall i, j :: 0 <= i < j < |u.list| ==> u.list[i] != u.list[j]) &&
      (forall i :: 0 <= i < |u.list| ==> Truthy(u.list[i])) &&
      (forall k :: 0 <= k < |items| && Present(Prop(items[k], "category")) ==>
         Prop(items[k], "category").value in u.list) &&
      u.list[0] == Prop(items[0], "category").value
  {
    var body := JObj(map["data" := JArr(items)]);
    assert Prop(body, "data") == Some(JArr(items));
    var xs := Categories(items);
    DistinctTruthyMembers(xs);
    DistinctTruthyDistinct(xs);
    DistinctTruthyOrder(xs);
    var r := DistinctTruthy(xs);
    assert xs[0] == Prop(items[0], "category");
    var first := xs[0].value;
    assert first in r;
    assert FirstIndex(xs, first) == 0;
  }

  // ---------------------------------------------------------------------------
  // Sections
  // ---------------------------------------------------------------------------

  const ShownCategoryCount: nat := 10
  const SectionSize: nat := 12

  /** The categories section: nothing while loading or when there are none, else the first
      ten. */
  function ShownCategories(categories: seq<Json>, loading: bool): (r: seq<Json>)
    ensures |r| <= ShownCategoryCount
    ensures loading ==> r == []
    ensures !loading ==> r == categories[..if |categories| < ShownCategoryCount then |categories| else ShownCategoryCount]
  {
    if loading || categories == [] then []
    else categories[..if |categories| < ShownCategoryCount then |categories| else ShownCategoryCount]
  }

  /** The first twelve products of a list, as the featured and trending sections show. */
  function Head<T>(products: seq<T>): (r: seq<T>)
    ensures |r| <= SectionSize
    ensures |r| == if |products| < SectionSize then |products| else SectionSize
    ensures forall i :: 0 <= i < |r| ==> r[i] == products[i]
  {
    products[..if |products| < SectionSize then |products| else SectionSize]
  }

  /** The "more" section: the featured products after the twelfth, shown only when there
      are more than twelve. */
  function Rest<T>(products: seq<T>): (r: seq<T>)
    ensures r != [] <==> |products| > SectionSize
    ensures |products| > SectionSize ==> r == products[SectionSize..]
  {
    if |products| > SectionSize then products[SectionSize..] else []
  }

  /** Between them the featured section and the "more" section show every featured product
      exactly once, in order. */
  lemma HeadAndRestPartition<T>(products: seq<T>)
    ensures Head(products) + Rest(products) == products
  {
    if |products| > SectionSize {
      assert products[..SectionSize] + products[SectionSize..] == products;
    }
  }

  /** The page's state: the categories list and its loading flag, the two product lists,
      and the products' loading flag and error message. */
  class HomePage {
    var categories: seq<Json>
    var categoriesLoading: bool
    var featured: seq<Json>
    var trending: seq<Json>
    var loading: bool
    var error: Option<string>

    constructor ()
      ensures categories == [] && categoriesLoading && featured == [] && trending == []
      ensures loading && error == None
    {
      categories := [];
      categoriesLoading := true;
      featured := [];
      trending := [];
      loading := true;
      error := None;
    }

    /** Taking in the categories reply: the list becomes what the normaliser decides and
        loading ends. */
    method ReceiveCategories(reply: CategoriesReply)
      modifies this
      ensures var u := NormalizeCategories(reply);
        categories == (if u.SetTo? then u.list else old(categories))
      ensures !categoriesLoading
      ensures featured == old(featured) && trending == old(trending)
      ensures loading == old(loading) && error == old(error)
    {
      var u := NormalizeCategories(reply);
      if u.SetTo? {
        categories := u.list;
      }
      categoriesLoading := false;
    }
  }
}
