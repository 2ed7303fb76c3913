/** The shopping-cart store of the demo page: an ordered list of line items
    that the page's "add to cart", "+", "-" and "Remove" buttons change, and
    a display that is rebuilt from that list after every change.

    The plain and the Bootstrap variant of the page run the same store twice
    with different markup; it is modelled once. The display is kept as data
    (the rows and the total the page shows), not as HTML. */
module Cart {

  /** One product in the cart. The price is the one recorded when the product
      was first added. */
  datatype LineItem = LineItem(name: string, price: int, quantity: int)

  /** One displayed row: the product, its price, its quantity and price × quantity. */
  datatype Row = Row(name: string, price: int, quantity: int, lineTotal: int)

  /** What the display shows: the "Cart is empty" marker, or one row per item and
      the grand total. */
  datatype CartView = EmptyCart | Filled(rows: seq<Row>, total: int)
  {
    /** The figure written into the total element ("0" for the empty cart). */
    function ShownTotal(): int
    {
      if EmptyCart? then 0 else total
    }
  }

  /** A sequence of operations the page's buttons can trigger. */
  datatype Op = Add(name: string, price: int) | Remove(name: string) | Change(name: string, delta: int)

  function LineTotal(item: LineItem): int
  {
    item.price * item.quantity
  }

  // ---------------------------------------------------------------------
  // The invariant the store keeps
  // ---------------------------------------------------------------------

  ghost predicate UniqueNames(items: seq<LineItem>)
  {
    forall j, k :: 0 <= j < k < |items| ==> items[j].name != items[k].name
  }

  ghost predicate PositiveQuantities(items: seq<LineItem>)
  {
    forall k :: 0 <= k < |items| ==> items[k].quantity >= 1
  }

  /** Every item has quantity at least 1 and no two items share a name. */
  ghost predicate Wf(items: seq<LineItem>)
  {
    UniqueNames(items) && PositiveQuantities(items)
  }

  ghost predicate Has(items: seq<LineItem>, name: string)
  {
    exists k :: 0 <= k < |items| && items[k].name == name
  }

  // ---------------------------------------------------------------------
  // The list operations the store uses
  // ---------------------------------------------------------------------

  /** The position of the first item called `name`, or -1: the item that
      `cart.find(item => item.name === name)` returns a reference to. */
  function FindIndex(items: seq<LineItem>, name: string): (i: int)
    ensures -1 <= i < |items|
    ensures i == -1 ==> !Has(items, name)
    ensures 0 <= i ==> items[i].name == name && forall k :: 0 <= k < i ==> items[k].name != name
  {
    if |items| == 0 then -1
    else if items[0].name == name then 0
    else
      var i := FindIndex(items[1..], name);
      if i < 0 then -1 else i + 1
  }

  /** `cart.filter(item => item.name !== name)`. */
  function Removed(items: seq<LineItem>, name: string): (r: seq<LineItem>)
    ensures |r| <= |items|
    ensures forall k :: 0 <= k < |r| ==> r[k].name != name
    ensures forall k :: 0 <= k < |r| ==> r[k] in items
  {
    if |items| == 0 then []
    else (if items[0].name == name then [] else [items[0]]) + Removed(items[1..], name)
  }

  // ---------------------------------------------------------------------
  // The store's transitions, as functions of the item list
  // ---------------------------------------------------------------------

  /** addItemToCart: one more of an item already present, else a new item at the end. */
  ghost function Added(items: seq<LineItem>, name: string, price: int): (r: seq<LineItem>)
    ensures Has(r, name)
    ensures |r| == if Has(items, name) then |items| else |items| + 1
    ensures forall k :: 0 <= k < |items| ==> r[k].name == items[k].name && r[k].price == items[k].price
  {
    var i := FindIndex(items, name);
    if 0 <= i then
      var r := items[i := items[i].(quantity := items[i].quantity + 1)];
      assert r[i].name == name;
      r
    else
      var r := items + [LineItem(name, price, 1)];
      assert r[|items|].name == name;
      r
  }

  /** updateQuantity: nothing when the name is absent; otherwise the quantity
      moves by `change`, and an item whose quantity drops to 0 or below is
      filtered out. */
  ghost function Updated(items: seq<LineItem>, name: string, change: int): (r: seq<LineItem>)
    ensures |r| <= |items|
    ensures !Has(items, name) ==> r == items
    ensures forall k :: 0 <= k < |r| ==> r[k] in items || (r[k].name == name && r[k].quantity > 0)
  {
    var i := FindIndex(items, name);
    if i < 0 then items
    else if items[i].quantity + change <= 0 then Removed(items, name)
    else items[i := items[i].(quantity := items[i].quantity + change)]
  }

  ghost function Apply(items: seq<LineItem>, op: Op): seq<LineItem>
  {
    match op
    case Add(name, price) => Added(items, name, price)
    case Remove(name) => Removed(items, name)
    case Change(name, delta) => Updated(items, name, delta)
  }

  ghost function ApplyAll(items: seq<LineItem>, ops: seq<Op>): seq<LineItem>
    decreases |ops|
  {
    if |ops| == 0 then items else ApplyAll(Apply(items, ops[0]), ops[1..])
  }

  /** The sum of price × quantity over the items. */
  ghost function Total(items: seq<LineItem>): (t: int)
    ensures PositiveQuantities(items) && (forall k :: 0 <= k < |items| ==> items[k].price >= 0) ==> t >= 0
  {
    if |items| == 0 then 0 else LineTotal(items[0]) + Total(items[1..])
  }

  function RowOf(item: LineItem): Row
  {
    Row(item.name, item.price, item.quantity, LineTotal(item))
  }

  /** What updateCartDisplay shows for `items`. */
  ghost function View(items: seq<LineItem>): (v: CartView)
    ensures v.EmptyCart? <==> |items| == 0
    ensures v.ShownTotal() == Total(items)
    ensures v.Filled? ==> |v.rows| == |items|
    ensures v.Filled? ==> forall k :: 0 <= k < |items| ==>
      v.rows[k].name == items[k].name && v.rows[k].price == items[k].price &&
      v.rows[k].quantity == items[k].quantity &&
      v.rows[k].lineTotal == items[k].price * items[k].quantity
  {
    if |items| == 0 then EmptyCart
    else Filled(seq(|items|, k requires 0 <= k < |items| => RowOf(items[k])), Total(items))
  }

  ghost function SumLineTotals(rows: seq<Row>): int
  {
    if |rows| == 0 then 0 else rows[0].lineTotal + SumLineTotals(rows[1..])
  }

  // ---------------------------------------------------------------------
  // The store
  // ---------------------------------------------------------------------

  class CartStore {
    /** The closure-held `cart` array of the page. */
    var items: seq<LineItem>
    /** What the cart container and the total element currently show. */
    var display: CartView

    /** The list keeps the cart invariant and the display shows the list. */
    ghost predicate Valid()
      reads this
    {
      Wf(items) && display == View(items)
    }

    /** A fresh store; the page's initial markup is taken to show the empty cart. */
    constructor ()
      ensures Valid() && items == [] && display == EmptyCart
    {
      items := [];
      display := EmptyCart;
    }

    /** addItemToCart (app.js:230-244). */
    method AddItem(name: string, price: int)
      requires Valid()
      modifies this
      ensures Valid()
      ensures items == Added(old(items), name, price)
      ensures display == View(items)
    {
      ghost var before := items;
      var i := FindIndex(items, name);
      if 0 <= i {
        items := items[i := items[i].(quantity := items[i].quantity + 1)];
      } else {
        items := items + [LineItem(name, price, 1)];
      }
      AddPreservesWf(before, name, price);
      UpdateDisplay();
    }

    /** removeItemFromCart (app.js:246-249). The page also calls it on an item
        whose quantity has just been set to 0 or below, so it asks for no invariant. */
    method RemoveItem(name: string)
      modifies this
      ensures items == Removed(old(items), name)
      ensures Wf(old(items)) ==> Valid()
      ensures display == View(items)
    {
      ghost var before := items;
      items := Removed(items, name);
      if Wf(before) {
        RemovePreservesWf(before, name);
      }
      UpdateDisplay();
    }

    /** updateQuantity (app.js:251-261): the display is rebuilt only when the
        item exists. */
    method UpdateQuantity(name: string, change: int)
      requires Valid()
      modifies this
      ensures Valid()
      ensures items == Updated(old(items), name, change)
      ensures Has(old(items), name) ==> display == View(items)
      ensures !Has(old(items), name) ==> items == old(items) && display == old(display)
    {
      ghost var before := items;
      var i := FindIndex(items, name);
      if 0 <= i {
        UpdatePresent(before, name, change, i);
        UpdatePreservesWf(before, name, change);
        items := items[i := items[i].(quantity := items[i].quantity + change)];
        if items[i].quantity <= 0 {
          SetQuantityRemoveAt(before, name, i, items[i].quantity);
          RemoveItem(name);
        } else {
          UpdateDisplay();
        }
      }
    }

    /** updateCartDisplay (app.js:263-297) with the DOM writes factored out. */
    method UpdateDisplay()
      modifies this`display
      ensures display == View(items)
    {
      display := RenderView();
    }

    /** The computation in updateCartDisplay: the empty marker, or the rows and
        the total accumulated in one pass over the items. */
    method RenderView() returns (view: CartView)
      ensures view == View(items)
    {
      if |items| == 0 {
        return EmptyCart;
      }
      var rows: seq<Row> := [];
      var total := 0;
      var k := 0;
      while k < |items|
        invariant 0 <= k <= |items|
        invariant |rows| == k
        invariant forall j :: 0 <= j < k ==> rows[j] == RowOf(items[j])
        invariant total == Total(items[..k])
      {
        var itemTotal := items[k].price * items[k].quantity;
        total := total + itemTotal;
        rows := rows + [Row(items[k].name, items[k].price, items[k].quantity, itemTotal)];
        TotalConcat(items[..k], [items[k]]);
        assert items[..k + 1] == items[..k] + [items[k]];
        k := k + 1;
      }
      assert items[..k] == items;
      view := Filled(rows, total);
    }
  }

  // ---------------------------------------------------------------------
  // Properties of the transitions
  // ---------------------------------------------------------------------

  /** With unique names, find locates the one item carrying the name. */
  lemma FindUnique(items: seq<LineItem>, name: string, i: int)
    requires UniqueNames(items)
    requires 0 <= i < |items| && items[i].name == name
    ensures FindIndex(items, name) == i
  {
    assert Has(items, name);
  }

  /** Adding a name already present bumps that item's quantity by exactly one;
      its price, the length and every other item stay as they were. */
  lemma AddExisting(items: seq<LineItem>, name: string, price: int, i: int)
    requires UniqueNames(items)
    requires 0 <= i < |items| && items[i].name == name
    ensures |Added(items, name, price)| == |items|
    ensures Added(items, name, price)[i] == LineItem(name, items[i].price, items[i].quantity + 1)
    ensures forall k :: 0 <= k < |items| && k != i ==> Added(items, name, price)[k] == items[k]
  {
    FindUnique(items, name, i);
  }

  /** Adding a new name appends it with quantity 1 after the existing items. */
  lemma AddNew(items: seq<LineItem>, name: string, price: int)
    requires !Has(items, name)
    ensures Added(items, name, price) == items + [LineItem(name, price, 1)]
  {
  }

  lemma AddPreservesWf(items: seq<LineItem>, name: string, price: int)
    requires Wf(items)
    ensures Wf(Added(items, name, price))
  {
    var i := FindIndex(items, name);
    var r := Added(items, name, price);
    if i < 0 {
      forall j, k | 0 <= j < k < |r| ensures r[j].name != r[k].name {
        if k == |items| {
          assert r[j] == items[j];
        }
      }
    } else {
      forall j, k | 0 <= j < k < |r| ensures r[j].name != r[k].name {
        assert r[j].name == items[j].name && r[k].name == items[k].name;
      }
    }
  }

  /** Dropping the first item keeps both halves of the invariant. */
  lemma TailKeepsWf(items: seq<LineItem>)
    requires |items| > 0
    ensures UniqueNames(items) ==> UniqueNames(items[1..])
    ensures PositiveQuantities(items) ==> PositiveQuantities(items[1..])
  {
    var tail := items[1..];
    forall k | 0 <= k < |tail| ensures tail[k] == items[k + 1] {
    }
  }

  /** Removing a name that occurs once deletes exactly that entry and keeps
      the others in their order. */
  lemma {:induction false} RemoveAt(items: seq<LineItem>, name: string, i: int)
    requires UniqueNames(items)
    requires 0 <= i < |items| && items[i].name == name
    ensures Removed(items, name) == items[..i] + items[i + 1..]
  {
    var tail := items[1..];
    if i == 0 {
      RemoveAtHead(items, name);
    } else {
      TailKeepsWf(items);
      assert tail[i - 1] == items[i];
      RemoveAt(items[1..], name, i - 1);
      assert items[0].name != name by { assert items[0].name != items[i].name; }
      RemovedKeepsHead(items, name);
      calc {
        Removed(items, name);
        [items[0]] + Removed(tail, name);
        [items[0]] + (tail[..i - 1] + tail[i..]);
        ([items[0]] + tail[..i - 1]) + tail[i..];
        { assert items[..i] == [items[0]] + tail[..i - 1]; assert items[i + 1..] == tail[i..]; }
        items[..i] + items[i + 1..];
      }
    }
  }

  /** The i = 0 case of RemoveAt: the rest does not carry the name. */
  lemma RemoveAtHead(items: seq<LineItem>, name: string)
    requires UniqueNames(items)
    requires |items| > 0 && items[0].name == name
    ensures Removed(items, name) == items[1..]
  {
    var tail := items[1..];
    assert !Has(tail, name) by {
      forall k | 0 <= k < |tail| ensures tail[k].name != name {
        assert tail[k] == items[k + 1];
      }
    }
    RemoveAbsent(tail, name);
    assert Removed(items, name) == [] + Removed(tail, name);
  }

  lemma RemovedKeepsHead(items: seq<LineItem>, name: string)
    requires |items| > 0 && items[0].name != name
    ensures Removed(items, name) == [items[0]] + Removed(items[1..], name)
  {
  }

  /** A name that no item carries is still carried by none after a removal. */
  lemma RemovedKeepsOtherNames(items: seq<LineItem>, name: string, other: string)
    requires forall k :: 0 <= k < |items| ==> items[k].name != other
    ensures forall k :: 0 <= k < |Removed(items, name)| ==> Removed(items, name)[k].name != other
  {
    var r := Removed(items, name);
    forall k | 0 <= k < |r| ensures r[k].name != other {
      assert r[k] in items;
    }
  }

  /** Filtering out an item whose quantity was just overwritten gives the
      same list as filtering it out before the overwrite. */
  lemma SetQuantityRemoveAt(items: seq<LineItem>, name: string, i: int, q: int)
    requires UniqueNames(items)
    requires 0 <= i < |items| && items[i].name == name
    ensures Removed(items[i := items[i].(quantity := q)], name) == items[..i] + items[i + 1..]
  {
    var changed := items[i := items[i].(quantity := q)];
    assert UniqueNames(changed) by {
      forall j, k | 0 <= j < k < |changed| ensures changed[j].name != changed[k].name {
        assert changed[j].name == items[j].name && changed[k].name == items[k].name;
      }
    }
    RemoveAt(changed, name, i);
    assert changed[..i] == items[..i] && changed[i + 1..] == items[i + 1..];
  }

  /** Removing a name that is absent changes nothing. */
  lemma {:induction false} RemoveAbsent(items: seq<LineItem>, name: string)
    requires !Has(items, name)
    ensures Removed(items, name) == items
  {
    if |items| > 0 {
      assert items[0].name != name;
      assert !Has(items[1..], name) by {
        forall k | 0 <= k < |items[1..]| ensures items[1..][k].name != name {
          assert items[1..][k] == items[k + 1];
        }
      }
      RemoveAbsent(items[1..], name);
      assert items == [items[0]] + items[1..];
    }
  }

  /** Removing twice is removing once. */
  lemma RemoveIdempotent(items: seq<LineItem>, name: string)
    ensures Removed(Removed(items, name), name) == Removed(items, name)
  {
    RemoveAbsent(Removed(items, name), name);
  }

  /** Filtering keeps the relative order of the kept items, so it keeps their names unique. */
  lemma {:induction false} RemovePreservesWf(items: seq<LineItem>, name: string)
    requires Wf(items)
    ensures Wf(Removed(items, name))
  {
    if |items| > 0 {
      var tail := items[1..];
      TailKeepsWf(items);
      RemovePreservesWf(tail, name);
      if items[0].name != name {
        assert forall k :: 0 <= k < |tail| ==> tail[k].name != items[0].name by {
          forall k | 0 <= k < |tail| ensures tail[k].name != items[0].name {
            assert tail[k] == items[k + 1];
          }
        }
        RemovedKeepsOtherNames(tail, name, items[0].name);
        RemovedKeepsHead(items, name);
        ConsKeepsWf(items[0], Removed(tail, name));
      } else {
        assert Removed(items, name) == [] + Removed(tail, name);
      }
    }
  }

  /** A new first item with a positive quantity and a name the others lack keeps the invariant. */
  lemma ConsKeepsWf(x: LineItem, rest: seq<LineItem>)
    requires Wf(rest) && x.quantity >= 1
    requires forall k :: 0 <= k < |rest| ==> rest[k].name != x.name
    ensures Wf([x] + rest)
  {
    var r := [x] + rest;
    forall k | 0 < k < |r| ensures r[k] == rest[k - 1] {
    }
  }

  /** Changing the quantity of an absent name changes nothing. */
  lemma UpdateAbsent(items: seq<LineItem>, name: string, change: int)
    requires !Has(items, name)
    ensures Updated(items, name, change) == items
  {
  }

  /** Changing the quantity of a present name either drops the item (when the
      new quantity is 0 or below), keeping the others in order, or sets its
      quantity to old + change, touching nothing else. */
  lemma UpdatePresent(items: seq<LineItem>, name: string, change: int, i: int)
    requires UniqueNames(items)
    requires 0 <= i < |items| && items[i].name == name
    ensures items[i].quantity + change <= 0 ==>
      Updated(items, name, change) == items[..i] + items[i + 1..]
    ensures items[i].quantity + change > 0 ==>
      Updated(items, name, change) == items[i := LineItem(name, items[i].price, items[i].quantity + change)]
  {
    FindUnique(items, name, i);
    if items[i].quantity + change <= 0 {
      RemoveAt(items, name, i);
    }
  }

  lemma UpdatePreservesWf(items: seq<LineItem>, name: string, change: int)
    requires Wf(items)
    ensures Wf(Updated(items, name, change))
  {
    var i := FindIndex(items, name);
    if 0 <= i {
      if items[i].quantity + change <= 0 {
        RemovePreservesWf(items, name);
      } else {
        var r := Updated(items, name, change);
        forall j, k | 0 <= j < k < |r| ensures r[j].name != r[k].name {
          assert r[j].name == items[j].name && r[k].name == items[k].name;
        }
      }
    }
  }

  /** Every list reachable from the empty cart through the page's buttons
      keeps the invariant. */
  lemma {:induction false} ReachableWf(items: seq<LineItem>, ops: seq<Op>)
    requires Wf(items)
    ensures Wf(ApplyAll(items, ops))
    decreases |ops|
  {
    if |ops| > 0 {
      match ops[0] {
        case Add(name, price) => AddPreservesWf(items, name, price);
        case Remove(name) => RemovePreservesWf(items, name);
        case Change(name, delta) => UpdatePreservesWf(items, name, delta);
      }
      ReachableWf(Apply(items, ops[0]), ops[1..]);
    }
  }

  // ---------------------------------------------------------------------
  // Properties of the total
  // ---------------------------------------------------------------------

  lemma {:induction false} TotalConcat(a: seq<LineItem>, b: seq<LineItem>)
    ensures Total(a + b) == Total(a) + Total(b)
  {
    if |a| == 0 {
      assert a + b == b;
    } else {
      TotalConcat(a[1..], b);
      assert (a + b)[1..] == a[1..] + b;
    }
  }

  /** Replacing one item changes the total by the difference of the two line totals. */
  lemma TotalReplace(items: seq<LineItem>, i: int, x: LineItem)
    requires 0 <= i < |items|
    ensures Total(items[i := x]) == Total(items) - LineTotal(items[i]) + LineTotal(x)
  {
    assert items == items[..i] + [items[i]] + items[i + 1..];
    assert items[i := x] == items[..i] + [x] + items[i + 1..];
    TotalConcat(items[..i] + [items[i]], items[i + 1..]);
    TotalConcat(items[..i], [items[i]]);
    TotalConcat(items[..i] + [x], items[i + 1..]);
    TotalConcat(items[..i], [x]);
  }

  /** One more of an item adds its price to its line total. */
  lemma LineTotalBump(it: LineItem)
    ensures LineTotal(it.(quantity := it.quantity + 1)) == LineTotal(it) + it.price
  {
    assert it.price * (it.quantity + 1) == it.price * it.quantity + it.price;
  }

  /** Adding raises the total by one unit price: the stored one for a known
      name, the given one for a new name. */
  lemma TotalAfterAdd(items: seq<LineItem>, name: string, price: int)
    ensures !Has(items, name) ==> Total(Added(items, name, price)) == Total(items) + price
    ensures Has(items, name) ==>
      Total(Added(items, name, price)) == Total(items) + items[FindIndex(items, name)].price
  {
    var i := FindIndex(items, name);
    if 0 <= i {
      var it := items[i];
      var bumped := it.(quantity := it.quantity + 1);
      assert Added(items, name, price) == items[i := bumped];
      TotalReplace(items, i, bumped);
      LineTotalBump(it);
    } else {
      assert Added(items, name, price) == items + [LineItem(name, price, 1)];
      TotalConcat(items, [LineItem(name, price, 1)]);
      assert Total([LineItem(name, price, 1)]) == price;
    }
  }

  /** Removing a name takes its line total off the total. */
  lemma TotalAfterRemove(items: seq<LineItem>, name: string, i: int)
    requires UniqueNames(items)
    requires 0 <= i < |items| && items[i].name == name
    ensures Total(Removed(items, name)) == Total(items) - LineTotal(items[i])
  {
    RemoveAt(items, name, i);
    assert items == items[..i] + [items[i]] + items[i + 1..];
    TotalConcat(items[..i] + [items[i]], items[i + 1..]);
    TotalConcat(items[..i], [items[i]]);
    TotalConcat(items[..i], items[i + 1..]);
  }

  /** The rendered total is the sum of the rendered line totals. */
  lemma {:induction false} TotalIsSumOfRows(items: seq<LineItem>)
    ensures View(items).Filled? ==> SumLineTotals(View(items).rows) == View(items).total
    ensures SumLineTotals(seq(|items|, k requires 0 <= k < |items| => RowOf(items[k]))) == Total(items)
  {
    var rows := seq(|items|, k requires 0 <= k < |items| => RowOf(items[k]));
    if |items| > 0 {
      TotalIsSumOfRows(items[1..]);
      var tailRows := seq(|items[1..]|, k requires 0 <= k < |items[1..]| => RowOf(items[1..][k]));
      assert rows[1..] == tailRows;
    }
  }

  // ---------------------------------------------------------------------
  // Worked examples
  // ---------------------------------------------------------------------

  /** Adding "X" at 10 and again at 20 keeps the first price and counts two. */
  lemma FirstPriceSticks()
    ensures Added(Added([], "X", 10), "X", 20) == [LineItem("X", 10, 2)]
  {
    AddNew([], "X", 10);
    AddExisting([LineItem("X", 10, 1)], "X", 20, 0);
  }

  /** Two Widgets, a Gadget, one Widget taken off: rows Widget 10 × 1 and
      Gadget 5 × 1, total 15. */
  lemma WidgetGadgetScenario()
    ensures View(Updated(Added(Added(Added([], "Widget", 10), "Widget", 10), "Gadget", 5), "Widget", -1))
      == Filled([Row("Widget", 10, 1, 10), Row("Gadget", 5, 1, 5)], 15)
  {
    var a := Added([], "Widget", 10);
    AddNew([], "Widget", 10);
    var b := Added(a, "Widget", 10);
    AddExisting(a, "Widget", 10, 0);
    assert b == [LineItem("Widget", 10, 2)];
    assert !Has(b, "Gadget");
    AddNew(b, "Gadget", 5);
    var c := Added(b, "Gadget", 5);
    assert c == [LineItem("Widget", 10, 2), LineItem("Gadget", 5, 1)];
    UpdatePresent(c, "Widget", -1, 0);
    var d := Updated(c, "Widget", -1);
    assert d == [LineItem("Widget", 10, 1), LineItem("Gadget", 5, 1)];
    assert Total(d[1..]) == 5 by { assert d[1..][1..] == []; }
  }

  /** One item at quantity 1, minus one: the cart is empty again. */
  lemma DecrementToZeroRemoves()
    ensures Updated(Added([], "X", 5), "X", -1) == []
    ensures View(Updated(Added([], "X", 5), "X", -1)) == EmptyCart
  {
    AddNew([], "X", 5);
    UpdatePresent([LineItem("X", 5, 1)], "X", -1, 0);
  }
}
