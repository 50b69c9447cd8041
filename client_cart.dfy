/** The storefront's client-side cart store: a list of items merged by id, with the derived
    item count and amount recomputed after every change, and the drawer, loading and error
    flags. The store is updated in place. */
module ClientCart {
  import opened Js

  datatype Item = Item(id: string, name: string, price: real, image: string, quantity: int)

  // ---------------------------------------------------------------------------
  // The derived totals
  // ---------------------------------------------------------------------------

  /** The number of units in the cart: the quantities summed, left to right. */
  function QuantitySum(items: seq<Item>): (t: int)
    ensures items == [] ==> t == 0
  {
    if items == [] then 0 else QuantitySum(items[..|items| - 1]) + items[|items| - 1].quantity
  }

  /** The cart's amount: price times quantity summed over the items, left to right. */
  function AmountSum(items: seq<Item>): (t: real)
    ensures items == [] ==> t == 0.0
  {
    if items == [] then 0.0
    else AmountSum(items[..|items| - 1]) + items[|items| - 1].price * items[|items| - 1].quantity as real
  }

  /** Items with non-negative quantities (and prices) give non-negative totals. */
  lemma {:induction false} SumsNonNegative(items: seq<Item>)
    requires forall i :: 0 <= i < |items| ==> items[i].quantity >= 0
    ensures QuantitySum(items) >= 0
    ensures (forall i :: 0 <= i < |items| ==> items[i].price >= 0.0) ==> AmountSum(items) >= 0.0
    decreases |items|
  {
    if items != [] {
      var last := items[|items| - 1];
      SumsNonNegative(items[..|items| - 1]);
      assert last.price >= 0.0 ==> last.price * last.quantity as real >= 0.0;
    }
  }

  lemma {:induction false} SumsAppend(a: seq<Item>, b: seq<Item>)
    ensures QuantitySum(a + b) == QuantitySum(a) + QuantitySum(b)
    ensures AmountSum(a + b) == AmountSum(a) + AmountSum(b)
    decreases |b|
  {
    if b == [] {
      assert a + b == a;
    } else {
      var b' := b[..|b| - 1];
      assert (a + b)[..|a + b| - 1] == a + b';
      assert (a + b)[|a + b| - 1] == b[|b| - 1];
      SumsAppend(a, b');
    }
  }

  lemma SumsOfOne(x: Item)
    ensures QuantitySum([x]) == x.quantity
    ensures AmountSum([x]) == x.price * x.quantity as real
  {
    assert [x][..0] == [];
  }

  /** Overwriting one item's quantity moves both totals by exactly the difference. */
  lemma SumsAfterSetQuantity(items: seq<Item>, i: nat, q: int)
    requires i < |items|
    ensures QuantitySum(items[i := items[i].(quantity := q)]) == QuantitySum(items) - items[i].quantity + q
    ensures AmountSum(items[i := items[i].(quantity := q)]) ==
      AmountSum(items) - items[i].price * items[i].quantity as real + items[i].price * q as real
  {
    QuantityAfterSet(items, i, q);
    AmountAfterSet(items, i, q);
  }

  lemma QuantityAfterSet(items: seq<Item>, i: nat, q: int)
    requires i < |items|
    ensures QuantitySum(items[i := items[i].(quantity := q)]) == QuantitySum(items) - items[i].quantity + q
  {
    var x := items[i].(quantity := q);
    var pre, post := items[..i], items[i + 1..];
    assert items == pre + [items[i]] + post;
    assert items[i := x] == pre + [x] + post;
    SumsAppend(pre + [items[i]], post);
    SumsAppend(pre + [x], post);
    SumsAppend(pre, [items[i]]);
    SumsAppend(pre, [x]);
    SumsOfOne(items[i]);
    SumsOfOne(x);
  }

  lemma AmountAfterSet(items: seq<Item>, i: nat, q: int)
    requires i < |items|
    ensures AmountSum(items[i := items[i].(quantity := q)]) ==
      AmountSum(items) - items[i].price * items[i].quantity as real + items[i].price * q as real
  {
    var x := items[i].(quantity := q);
    var set' := items[i := x];
    AmountSplitAt(items, i);
    AmountSplitAt(set', i);
    assert set'[..i] == items[..i] && set'[i + 1..] == items[i + 1..];
    SumsOfOne(items[i]);
    SumsOfOne(x);
  }

  /** The amount splits around any one item. */
  lemma AmountSplitAt(items: seq<Item>, i: nat)
    requires i < |items|
    ensures AmountSum(items) == AmountSum(items[..i]) + AmountSum([items[i]]) + AmountSum(items[i + 1..])
  {
    var pre, post := items[..i], items[i + 1..];
    assert items == pre + [items[i]] + post;
    SumsAppend(pre + [items[i]], post);
    SumsAppend(pre, [items[i]]);
  }

  // ---------------------------------------------------------------------------
  // The item-list operations
  // ---------------------------------------------------------------------------

  /** The index of the first item with id `id`, or `|items|` when there is none. */
  function IndexOfId(items: seq<Item>, id: string): (i: nat)
    ensures i <= |items|
    ensures i < |items| ==> items[i].id == id
    ensures forall j :: 0 <= j < i ==> items[j].id != id
  {
    if items == [] then 0 else if items[0].id == id then 0 else 1 + IndexOfId(items[1..], id)
  }

  /** No two items share an id. */
  predicate UniqueIds(items: seq<Item>) {
    forall i, j :: 0 <= i < j < |items| ==> items[i].id != items[j].id
  }

  /** The items after `addItem`: an item already present gains the quantity and keeps its
      stored name, price and image; a new one is appended. */
  function Merge(items: seq<Item>, x: Item): (r: seq<Item>)
    ensures |items| <= |r| <= |items| + 1
  {
    var i := IndexOfId(items, x.id);
    if i < |items| then items[i := items[i].(quantity := items[i].quantity + x.quantity)] else items + [x]
  }

  /** The items whose id is not `id`, in their order. */
  function WithoutId(items: seq<Item>, id: string): (r: seq<Item>)
    ensures |r| <= |items|
    ensures forall j :: 0 <= j < |r| ==> r[j].id != id
  {
    if items == [] then []
    else
      var last := items[|items| - 1];
      WithoutId(items[..|items| - 1], id) + (if last.id == id then [] else [last])
  }

  /** Merging raises the item count by the added quantity and the amount by that quantity
      at the price of the item that takes it. */
  lemma MergeTotals(items: seq<Item>, x: Item)
    ensures QuantitySum(Merge(items, x)) == QuantitySum(items) + x.quantity
    ensures IndexOfId(items, x.id) < |items| ==>
      AmountSum(Merge(items, x)) == AmountSum(items) + items[IndexOfId(items, x.id)].price * x.quantity as real
    ensures IndexOfId(items, x.id) == |items| ==>
      AmountSum(Merge(items, x)) == AmountSum(items) + x.price * x.quantity as real
  {
    MergeQuantity(items, x);
    MergeAmount(items, x);
  }

  lemma {:induction false} MergeQuantity(items: seq<Item>, x: Item)
    ensures QuantitySum(Merge(items, x)) == QuantitySum(items) + x.quantity
  {
    var i := IndexOfId(items, x.id);
    if i < |items| {
      var y := items[i];
      assert Merge(items, x) == items[i := y.(quantity := y.quantity + x.quantity)];
      QuantityAfterSet(items, i, y.quantity + x.quantity);
    } else {
      assert Merge(items, x) == items + [x];
      SumsAppend(items, [x]);
      SumsOfOne(x);
    }
  }

  lemma {:induction false} MergeAmount(items: seq<Item>, x: Item)
    ensures IndexOfId(items, x.id) < |items| ==>
      AmountSum(Merge(items, x)) == AmountSum(items) + items[IndexOfId(items, x.id)].price * x.quantity as real
    ensures IndexOfId(items, x.id) == |items| ==>
      AmountSum(Merge(items, x)) == AmountSum(items) + x.price * x.quantity as real
  {
    var i := IndexOfId(items, x.id);
    MergeShape(items, x);
    if i < |items| {
      var y := items[i];
      var q := y.quantity + x.quantity;
      AmountAfterSet(items, i, q);
      var merged := items[i := y.(quantity := q)];
      assert Merge(items, x) == merged;
      assert AmountSum(merged) == AmountSum(items) - y.price * y.quantity as real + y.price * q as real;
      ShiftProduct(AmountSum(items), y.price, y.quantity as real, x.quantity as real, q as real);
      assert AmountSum(merged) == AmountSum(items) + y.price * x.quantity as real;
    } else {
      SumsAppend(items, [x]);
      SumsOfOne(x);
      assert AmountSum(Merge(items, x)) == AmountSum(items) + x.price * x.quantity as real;
    }
  }

  lemma {:induction false} MergeShape(items: seq<Item>, x: Item)
    ensures var i := IndexOfId(items, x.id);
      (i < |items| ==> Merge(items, x) == items[i := items[i].(quantity := items[i].quantity + x.quantity)]) &&
      (i == |items| ==> Merge(items, x) == items + [x])
  {
  }

  /** Replacing `p * a` by `p * c` in a sum, where `c` is `a + b`, adds `p * b`. */
  lemma ShiftProduct(sum: real, p: real, a: real, b: real, c: real)
    requires c == a + b
    ensures sum - p * a + p * c == sum + p * b
  {
  }

  /** The update in place that `addItem` performs is the merge, and it keeps the cart's
      invariant. */
  lemma MergedInPlace(before: seq<Item>, x: Item, i: nat, merged: seq<Item>)
    requires UniqueIds(before) && i == IndexOfId(before, x.id)
    requires i < |before| ==> merged == before[i := before[i].(quantity := before[i].quantity + x.quantity)]
    requires i == |before| ==> merged == before + [x]
    ensures merged == Merge(before, x)
    ensures QuantitySum(merged) == QuantitySum(before) + x.quantity && UniqueIds(merged)
  {
    MergeShape(before, x);
    MergeQuantity(before, x);
    MergeKeepsIdsUnique(before, x);
  }

  /** Merging touches no item with another id. */
  lemma MergeKeepsOthers(items: seq<Item>, x: Item)
    ensures forall j :: 0 <= j < |items| && items[j].id != x.id ==> Merge(items, x)[j] == items[j]
  {
  }

  /** Merging never creates a second item with the same id. */

  lemma MergeKeepsIdsUnique(items: seq<Item>, x: Item)
    requires UniqueIds(items)
    ensures UniqueIds(Merge(items, x))
  {
  }

  /** The items after a run of `addItem` calls, one per element of `added`, in order. */
  function MergeAll(items: seq<Item>, added: seq<Item>): (r: seq<Item>)
    ensures |items| <= |r| <= |items| + |added|
    decreases |added|
  {
    if added == [] then items else MergeAll(Merge(items, added[0]), added[1..])
  }

  /** However many items are added, no id appears twice and the item count grows by the
      sum of the added quantities. */
  lemma {:induction false} MergeAllKeepsCart(items: seq<Item>, added: seq<Item>)
    requires UniqueIds(items)
    ensures UniqueIds(MergeAll(items, added))
    ensures QuantitySum(MergeAll(items, added)) == QuantitySum(items) + QuantitySum(added)
    decreases |added|
  {
    if added == [] {
    } else {
      var x, rest := added[0], added[1..];
      var merged := Merge(items, x);
      assert MergeAll(items, added) == MergeAll(merged, rest);
      MergeKeepsIdsUnique(items, x);
      MergeQuantity(items, x);
      MergeAllKeepsCart(merged, rest);
      assert added == [x] + rest;
      SumsAppend([x], rest);
      SumsOfOne(x);
      assert QuantitySum(added) == x.quantity + QuantitySum(rest);
    }
  }

  /** The filter keeps exactly the items with other ids, in their original order: it
      distributes over concatenation, and an item is kept exactly when its id differs. */
  lemma {:induction false} WithoutIdMeaning(a: seq<Item>, b: seq<Item>, id: string)
    ensures WithoutId(a + b, id) == WithoutId(a, id) + WithoutId(b, id)
    ensures forall x :: x in WithoutId(a, id) <==> x in a && x.id != id
  {
    WithoutIdAppend(a, b, id);
    WithoutIdMembers(a, id);
  }

  lemma {:induction false} WithoutIdAppend(a: seq<Item>, b: seq<Item>, id: string)
    ensures WithoutId(a + b, id) == WithoutId(a, id) + WithoutId(b, id)
    decreases |b|
  {
    if b == [] {
      assert a + b == a;
    } else {
      var b', last := b[..|b| - 1], b[|b| - 1];
      assert (a + b)[..|a + b| - 1] == a + b';
      assert (a + b)[|a + b| - 1] == last;
      WithoutIdAppend(a, b', id);
      var tail := if last.id == id then [] else [last];
      assert WithoutId(a + b, id) == WithoutId(a, id) + WithoutId(b', id) + tail;
      assert WithoutId(b, id) == WithoutId(b', id) + tail;
    }
  }

  lemma {:induction false} WithoutIdMembers(a: seq<Item>, id: string)
    ensures forall x :: x in WithoutId(a, id) <==> x in a && x.id != id
  {
    if a != [] {
      var a', last := a[..|a| - 1], a[|a| - 1];
      WithoutIdMembers(a', id);
      assert a == a' + [last];
      var tail := if last.id == id then [] else [last];
      assert WithoutId(a, id) == WithoutId(a', id) + tail;
    }
  }

  /** Removing an id no item has changes nothing. */
  lemma {:induction false} WithoutAbsentId(items: seq<Item>, id: string)
    requires forall j :: 0 <= j < |items| ==> items[j].id != id
    ensures WithoutId(items, id) == items
  {
    if items != [] {
      WithoutAbsentId(items[..|items| - 1], id);
      assert items == items[..|items| - 1] + [items[|items| - 1]];
    }
  }

  /** Removing keeps ids unique. */
  lemma WithoutIdKeepsIdsUnique(items: seq<Item>, id: string)
    requires UniqueIds(items)
    ensures UniqueIds(WithoutId(items, id))
  {
    WithoutIdSubsequence(items, id);
  }

  /** The filter picks items at increasing positions. */
  lemma {:induction false} WithoutIdSubsequence(items: seq<Item>, id: string)
    requires UniqueIds(items)
    ensures UniqueIds(WithoutId(items, id))
    ensures forall x :: x in WithoutId(items, id) ==> x in items
  {
    if items != [] {
      var prefix, last := items[..|items| - 1], items[|items| - 1];
      WithoutIdSubsequence(prefix, id);
      WithoutIdMembers(prefix, id);
      var r := WithoutId(prefix, id);
      if last.id != id {
        forall x | x in r
          ensures x.id != last.id
        {
          var j :| 0 <= j < |prefix| && prefix[j] == x;
          assert items[j] == x;
        }
        assert WithoutId(items, id) == r + [last];
      } else {
        assert WithoutId(items, id) == r + [];
      }
    }
  }

  // ---------------------------------------------------------------------------
  // The loops that recompute the totals and find an item
  // ---------------------------------------------------------------------------

  method SumQuantity(items: seq<Item>) returns (total: int)
    ensures total == QuantitySum(items)
  {
    total := 0;
    var i := 0;
    while i < |items|
      invariant 0 <= i <= |items|
      invariant total == QuantitySum(items[..i])
    {
      assert items[..i + 1][..i] == items[..i];
      total := total + items[i].quantity;
      i := i + 1;
    }
    assert items[..|items|] == items;
  }

  method SumAmount(items: seq<Item>) returns (total: real)
    ensures total == AmountSum(items)
  {
    total := 0.0;
    var i := 0;
    while i < |items|
      invariant 0 <= i <= |items|
      invariant total == AmountSum(items[..i])
    {
      assert items[..i + 1][..i] == items[..i];
      total := total + items[i].price * items[i].quantity as real;
      i := i + 1;
    }
    assert items[..|items|] == items;
  }

  method FindItem(items: seq<Item>, id: string) returns (i: nat)
    ensures i <= |items|
    ensures i < |items| ==> items[i].id == id
    ensures forall j :: 0 <= j < i ==> items[j].id != id
  {
    i := 0;
    while i < |items| && items[i].id != id
      invariant 0 <= i <= |items|
      invariant forall j :: 0 <= j < i ==> items[j].id != id
    {
      i := i + 1;
    }
  }

  /** The items whose id is not `id`, collected by a loop. */
  method FilterItems(items: seq<Item>, id: string) returns (kept: seq<Item>)
    ensures kept == WithoutId(items, id)
  {
    kept := [];
    var i := 0;
    while i < |items|
      invariant 0 <= i <= |items|
      invariant kept == WithoutId(items[..i], id)
    {
      assert items[..i + 1][..i] == items[..i];
      if items[i].id != id {
        kept := kept + [items[i]];
      }
      i := i + 1;
    }
    assert items[..|items|] == items;
  }

  /** The first match is unique, so the loop finds what the function names. */
  lemma {:induction false} FirstIndexOfId(items: seq<Item>, id: string, i: nat)
    requires i <= |items|
    requires i < |items| ==> items[i].id == id
    requires forall j :: 0 <= j < i ==> items[j].id != id
    ensures i == IndexOfId(items, id)
  {
    if items != [] && items[0].id != id {
      FirstIndexOfId(items[1..], id, i - 1);
    }
  }

  // ---------------------------------------------------------------------------
  // The store
  // ---------------------------------------------------------------------------

  class CartState {
    var items: seq<Item>
    var totalQuantity: int
    var totalAmount: real
    var loading: bool
    var error: Option<string>
    var isCartOpen: bool

    /** The totals are those of the items, and ids are unique. */
    ghost predicate Valid()
      reads this
    {
      totalQuantity == QuantitySum(items) && totalAmount == AmountSum(items) && UniqueIds(items)
    }

    /** The initial state. */
    constructor ()
      ensures Valid()
      ensures items == [] && totalQuantity == 0 && totalAmount == 0.0
      ensures !loading && error == None && !isCartOpen
    {
      items := [];
      totalQuantity := 0;
      totalAmount := 0.0;
      loading := false;
      error := None;
      isCartOpen := false;
    }

    method OpenCart()
      modifies this
      ensures isCartOpen
      ensures items == old(items) && totalQuantity == old(totalQuantity) && totalAmount == old(totalAmount)
      ensures loading == old(loading) && error == old(error)
    {
      isCartOpen := true;
    }

    method CloseCart()
      modifies this
      ensures !isCartOpen
      ensures items == old(items) && totalQuantity == old(totalQuantity) && totalAmount == old(totalAmount)
      ensures loading == old(loading) && error == old(error)
    {
      isCartOpen := false;
    }

    method ToggleCart()
      modifies this
      ensures isCartOpen == !old(isCartOpen)
      ensures items == old(items) && totalQuantity == old(totalQuantity) && totalAmount == old(totalAmount)
      ensures loading == old(loading) && error == old(error)
    {
      isCartOpen := !isCartOpen;
    }

    /** `addItem`; an undefined quantity counts as 1. */
    method AddItem(id: string, name: string, price: real, image: string, quantity: Option<int>)
      requires Valid()
      modifies this
      ensures Valid()
      ensures var q := if quantity.Some? then quantity.value else 1;
        items == Merge(old(items), Item(id, name, price, image, q)) && totalQuantity == old(totalQuantity) + q
      ensures isCartOpen == old(isCartOpen) && loading == old(loading) && error == old(error)
    {
      var q := if quantity.Some? then quantity.value else 1;
      var x := Item(id, name, price, image, q);
      var before := items;
      var i := FindItem(before, id);
      FirstIndexOfId(before, id, i);
      var merged;
      if i < |before| {
        merged := before[i := before[i].(quantity := before[i].quantity + q)];
      } else {
        merged := before + [x];
      }
      MergedInPlace(before, x, i, merged);
      var newQuantity := SumQuantity(merged);
      var newAmount := SumAmount(merged);
      assert newQuantity == totalQuantity + q;
      items, totalQuantity, totalAmount := merged, newQuantity, newAmount;
    }

    /** `removeItem`: every item with the id goes; the rest keep their order. */
    method RemoveItem(id: string)
      requires Valid()
      modifies this
      ensures Valid()
      ensures items == WithoutId(old(items), id)
      ensures isCartOpen == old(isCartOpen) && loading == old(loading) && error == old(error)
    {
      var before := items;
      var kept := FilterItems(before, id);
      WithoutIdKeepsIdsUnique(before, id);
      assert UniqueIds(kept);
      items := kept;
      totalQuantity := SumQuantity(kept);
      totalAmount := SumAmount(kept);
    }

    /** `updateQuantity`: an absent id changes nothing, totals included; a present one gets
      the new quantity and nothing else about it changes. */
    method UpdateQuantity(id: string, quantity: int)
      requires Valid()
      modifies this
      ensures Valid()
      ensures var i := IndexOfId(old(items), id);
        if i < |old(items)| then
          items == old(items)[i := old(items)[i].(quantity := quantity)] &&
          totalQuantity == old(totalQuantity) - old(items)[i].quantity + quantity
        else
          items == old(items) && totalQuantity == old(totalQuantity) && totalAmount == old(totalAmount)
      ensures isCartOpen == old(isCartOpen) && loading == old(loading) && error == old(error)
    {
      var before := items;
      var i := FindItem(before, id);
      FirstIndexOfId(before, id, i);
      if i < |before| {
        var updated := before[i := before[i].(quantity := quantity)];
        QuantityAfterSet(before, i, quantity);
        assert UniqueIds(updated) by {
          forall j | 0 <= j < |updated| ensures updated[j].id == before[j].id {}
        }
        var newQuantity := SumQuantity(updated);
        var newAmount := SumAmount(updated);
        items, totalQuantity, totalAmount := updated, newQuantity, newAmount;
      }
    }

    /** `clearCart`: no items and zero totals; the flags stay. */
    method ClearCart()
      modifies this
      ensures Valid()
      ensures items == [] && totalQuantity == 0 && totalAmount == 0.0
      ensures isCartOpen == old(isCartOpen) && loading == old(loading) && error == old(error)
    {
      items := [];
      totalQuantity := 0;
      totalAmount := 0.0;
    }

    method SetLoading(value: bool)
      modifies this
      ensures loading == value
      ensures items == old(items) && totalQuantity == old(totalQuantity) && totalAmount == old(totalAmount)
      ensures isCartOpen == old(isCartOpen) && error == old(error)
    {
      loading := value;
    }

    method SetError(value: Option<string>)
      modifies this
      ensures error == value
      ensures items == old(items) && totalQuantity == old(totalQuantity) && totalAmount == old(totalAmount)
      ensures isCartOpen == old(isCartOpen) && loading == old(loading)
    {
      error := value;
    }
  }
}
