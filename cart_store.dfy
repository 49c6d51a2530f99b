/**
 * The shopping cart of src/store/cart.store.ts: an ordered list of line items
 * keyed by product id. Each action replaces the store's `items` with a new
 * list computed by a `map` and/or `filter`; `total` and `count` are folds.
 */
module CartStore {

  datatype CartItem = CartItem(id: string, name: string, price: int, image: string, qty: int)

  // ------------------------------------------------------------ list helpers

  /** The quantity rewrites that `add`, `increment` and `decrement` apply to matching lines. */
  datatype QtyChange = Plus(amount: int) | LowerClamped

  function Apply(change: QtyChange, qty: int): int {
    match change
    case Plus(n) => qty + n
    case LowerClamped => if 1 > qty - 1 then 1 else qty - 1  // Math.max(1, qty - 1)
  }

  /** `items.map(i => i.id === id ? { ...i, qty: change(i.qty) } : i)` */
  function UpdateQty(items: seq<CartItem>, id: string, change: QtyChange): (r: seq<CartItem>)
    ensures |r| == |items|
    ensures forall k :: 0 <= k < |r| ==>
      r[k] == if items[k].id == id then items[k].(qty := Apply(change, items[k].qty)) else items[k]
  {
    if items == [] then []
    else
      var head := if items[0].id == id then items[0].(qty := Apply(change, items[0].qty)) else items[0];
      [head] + UpdateQty(items[1..], id, change)
  }

  /** The conditions that `remove` and `decrement` filter on. */
  datatype LineTest = IdIsNot(id: string) | QtyPositive

  predicate Passes(test: LineTest, line: CartItem) {
    match test
    case IdIsNot(id) => line.id != id
    case QtyPositive => line.qty > 0
  }

  /** `items.filter(test)` */
  function FilterLines(items: seq<CartItem>, test: LineTest): (r: seq<CartItem>)
    ensures |r| <= |items|
    ensures forall l :: l in r <==> l in items && Passes(test, l)
  {
    if items == [] then []
    else if Passes(test, items[0]) then [items[0]] + FilterLines(items[1..], test)
    else FilterLines(items[1..], test)
  }

  predicate HasId(items: seq<CartItem>, id: string) {
    exists k :: 0 <= k < |items| && items[k].id == id
  }

  /** The data-model invariant: at most one line per product id. */
  predicate UniqueIds(items: seq<CartItem>) {
    forall j, k :: 0 <= j < k < |items| ==> items[j].id != items[k].id
  }

  /** Every line carries a positive quantity. */
  predicate AllPositive(items: seq<CartItem>) {
    forall k :: 0 <= k < |items| ==> items[k].qty > 0
  }

  // ------------------------------------------------------------ the actions, as values

  /** The new `items` of `add(item)`. */
  function AddLine(items: seq<CartItem>, item: CartItem): (r: seq<CartItem>)
    ensures HasId(items, item.id) ==>
      |r| == |items| &&
      forall k :: 0 <= k < |r| ==>
        && r[k].id == items[k].id && r[k].name == items[k].name
        && r[k].price == items[k].price && r[k].image == items[k].image
        && r[k].qty == items[k].qty + (if items[k].id == item.id then item.qty else 0)
    ensures !HasId(items, item.id) ==> r == items + [item]
    ensures HasId(r, item.id)
  {
    if HasId(items, item.id) then
      var r := UpdateQty(items, item.id, Plus(item.qty));
      assert HasId(r, item.id) by {
        var k :| 0 <= k < |items| && items[k].id == item.id;
        assert r[k].id == item.id;
      }
      r
    else
      var r := items + [item];
      assert r[|items|] == item;
      r
  }

  /** The new `items` of `remove(id)`. */
  function Without(items: seq<CartItem>, id: string): (r: seq<CartItem>)
    ensures !HasId(r, id)
    ensures forall l :: l in items && l.id != id ==> l in r
    ensures forall l :: l in r ==> l in items
  {
    var r := FilterLines(items, IdIsNot(id));
    assert forall k :: 0 <= k < |r| ==> r[k] in r;
    r
  }

  /** The new `items` of `increment(id)`. */
  function Bumped(items: seq<CartItem>, id: string): (r: seq<CartItem>)
    ensures |r| == |items|
    ensures forall k :: 0 <= k < |r| ==>
      r[k].qty == items[k].qty + (if items[k].id == id then 1 else 0) &&
      r[k] == items[k].(qty := r[k].qty)
  {
    UpdateQty(items, id, Plus(1))
  }

  /**
   * The new `items` of `decrement(id)`: clamp the target at 1, then drop every line whose
   * quantity is not positive. The target lines always survive, lowered; another line survives
   * exactly when its quantity is positive; ids stay unique.
   */
  function Decremented(items: seq<CartItem>, id: string): (r: seq<CartItem>)
    ensures AllPositive(r)
    ensures |r| <= |items|
    ensures forall l :: l in r <==> l in UpdateQty(items, id, LowerClamped) && l.qty > 0
    ensures forall k :: 0 <= k < |items| && items[k].id == id ==>
      items[k].(qty := Apply(LowerClamped, items[k].qty)) in r
    ensures forall k :: 0 <= k < |items| && items[k].id != id ==> (items[k] in r <==> items[k].qty > 0)
    ensures UniqueIds(items) ==> UniqueIds(r)
  {
    var lowered := UpdateQty(items, id, LowerClamped);
    var r := FilterLines(lowered, QtyPositive);
    assert forall k :: 0 <= k < |r| ==> r[k] in r;
    assert forall k :: 0 <= k < |items| ==> lowered[k] in lowered;
    FilterKeepsIdsUnique(lowered, QtyPositive);
    r
  }

  /** `items.reduce((sum, i) => sum + i.price * i.qty, 0)` */
  function LinesTotal(items: seq<CartItem>): int {
    if items == [] then 0 else items[0].price * items[0].qty + LinesTotal(items[1..])
  }

  /** `items.reduce((sum, i) => sum + i.qty, 0)` */
  function LinesCount(items: seq<CartItem>): int {
    if items == [] then 0 else items[0].qty + LinesCount(items[1..])
  }

  // ------------------------------------------------------------ the store

  class CartState {
    var items: seq<CartItem>

    /** The store starts with an empty cart. */
    constructor ()
      ensures items == []
    {
      items := [];
    }

    method Add(item: CartItem)
      modifies this
      ensures items == AddLine(old(items), item)
    {
      items := AddLine(items, item);
    }

    method Remove(id: string)
      modifies this
      ensures items == Without(old(items), id)
    {
      items := Without(items, id);
    }

    method Clear()
      modifies this
      ensures items == []
      ensures Total() == 0 && Count() == 0
    {
      items := [];
    }

    method Increment(id: string)
      modifies this
      ensures items == Bumped(old(items), id)
    {
      items := Bumped(items, id);
    }

    method Decrement(id: string)
      modifies this
      ensures items == Decremented(old(items), id)
      ensures AllPositive(items)
    {
      items := Decremented(items, id);
    }

    /** The cart's value: the sum of price times quantity over its lines. */
    function Total(): (r: int)
      reads this
      ensures items == [] ==> r == 0
    {
      LinesTotal(items)
    }

    /** The number of units in the cart (not the number of lines). */
    function Count(): (r: int)
      reads this
      ensures items == [] ==> r == 0
    {
      LinesCount(items)
    }
  }

  // ------------------------------------------------------------ sums

  /** The number of lines carrying `id`. */
  function Occurrences(items: seq<CartItem>, id: string): nat {
    if items == [] then 0 else (if items[0].id == id then 1 else 0) + Occurrences(items[1..], id)
  }

  /** The units ordered of product `id`. */
  function QtyOf(items: seq<CartItem>, id: string): int {
    if items == [] then 0 else (if items[0].id == id then items[0].qty else 0) + QtyOf(items[1..], id)
  }

  /** The sum of the unit prices of the lines carrying `id`. */
  function PriceOf(items: seq<CartItem>, id: string): int {
    if items == [] then 0 else (if items[0].id == id then items[0].price else 0) + PriceOf(items[1..], id)
  }

  /** Both folds split over concatenation, so appending a line adds its share. */
  lemma {:induction false} SumsOfConcat(a: seq<CartItem>, b: seq<CartItem>)
    ensures LinesTotal(a + b) == LinesTotal(a) + LinesTotal(b)
    ensures LinesCount(a + b) == LinesCount(a) + LinesCount(b)
  {
    if a == [] {
      assert a + b == b;
    } else {
      assert (a + b)[1..] == a[1..] + b;
      SumsOfConcat(a[1..], b);
    }
  }

  lemma {:induction false} QtyOfConcat(a: seq<CartItem>, b: seq<CartItem>, id: string)
    ensures QtyOf(a + b, id) == QtyOf(a, id) + QtyOf(b, id)
  {
    if a == [] {
      assert a + b == b;
    } else {
      assert (a + b)[1..] == a[1..] + b;
      QtyOfConcat(a[1..], b, id);
    }
  }

  /** Adding n units to every line of product x raises `count()` by n per such line. */
  lemma {:induction false} PlusCount(items: seq<CartItem>, x: string, n: int)
    ensures LinesCount(UpdateQty(items, x, Plus(n))) == LinesCount(items) + n * Occurrences(items, x)
  {
    if items != [] {
      var r := UpdateQty(items, x, Plus(n));
      assert r[1..] == UpdateQty(items[1..], x, Plus(n));
      PlusCount(items[1..], x, n);
      var rest := Occurrences(items[1..], x);
      assert n * Occurrences(items, x) == (if items[0].id == x then n else 0) + n * rest;
    }
  }

  /** Adding n units to every line of product x raises `total()` by n times those lines' unit prices. */
  lemma {:induction false} PlusTotal(items: seq<CartItem>, x: string, n: int)
    ensures LinesTotal(UpdateQty(items, x, Plus(n))) == LinesTotal(items) + n * PriceOf(items, x)
  {
    if items != [] {
      var r := UpdateQty(items, x, Plus(n));
      assert r[1..] == UpdateQty(items[1..], x, Plus(n));
      PlusTotal(items[1..], x, n);
      var l := items[0];
      var rest := PriceOf(items[1..], x);
      if l.id == x {
        assert r[0].price * r[0].qty == l.price * l.qty + n * l.price by {
          assert r[0] == l.(qty := l.qty + n);
        }
        assert n * PriceOf(items, x) == n * l.price + n * rest;
      } else {
        assert r[0] == l;
      }
    }
  }

  /** Adding n units to every line of product x raises x's units by n per such line, and no other product's. */
  lemma {:induction false} PlusQty(items: seq<CartItem>, x: string, n: int, id: string)
    ensures QtyOf(UpdateQty(items, x, Plus(n)), id) == QtyOf(items, id) + (if id == x then n * Occurrences(items, x) else 0)
  {
    if items != [] {
      var r := UpdateQty(items, x, Plus(n));
      assert r[1..] == UpdateQty(items[1..], x, Plus(n));
      PlusQty(items[1..], x, n, id);
      var rest := Occurrences(items[1..], x);
      assert n * Occurrences(items, x) == (if items[0].id == x then n else 0) + n * rest;
    }
  }

  /** With unique ids, a present product occupies exactly one line. */
  lemma {:induction false} SingleLine(items: seq<CartItem>, k: nat)
    requires UniqueIds(items) && k < |items|
    ensures Occurrences(items, items[k].id) == 1
    ensures PriceOf(items, items[k].id) == items[k].price
  {
    if k == 0 {
      AbsentId(items[1..], items[0].id);
    } else {
      SingleLine(items[1..], k - 1);
    }
  }

  /** A product without a line has no share in any fold. */
  lemma {:induction false} AbsentId(items: seq<CartItem>, id: string)
    requires !HasId(items, id)
    ensures Occurrences(items, id) == 0 && PriceOf(items, id) == 0 && QtyOf(items, id) == 0
  {
    if items != [] {
      AbsentId(items[1..], id);
    }
  }

  // ------------------------------------------------------------ properties of the actions

  /** `add` keeps one line per product. */
  lemma AddKeepsIdsUnique(items: seq<CartItem>, item: CartItem)
    requires UniqueIds(items)
    ensures UniqueIds(AddLine(items, item))
  {
  }

  /**
   * `add` merges: the units of the added product grow by the incoming quantity and those of
   * every other product stay.
   */
  lemma AddMergesQuantity(items: seq<CartItem>, item: CartItem, id: string)
    requires UniqueIds(items)
    ensures QtyOf(AddLine(items, item), id) == QtyOf(items, id) + (if id == item.id then item.qty else 0)
  {
    if HasId(items, item.id) {
      var k :| 0 <= k < |items| && items[k].id == item.id;
      SingleLine(items, k);
      PlusQty(items, item.id, item.qty, id);
    } else {
      QtyOfConcat(items, [item], id);
    }
  }

  /**
   * `add` raises `count()` by the incoming quantity and `total()` by that quantity at the
   * unit price already in the cart (the price of the first `add` is kept).
   */
  lemma AddRaisesTotals(items: seq<CartItem>, item: CartItem)
    requires UniqueIds(items)
    ensures LinesCount(AddLine(items, item)) == LinesCount(items) + item.qty
    ensures !HasId(items, item.id) ==> LinesTotal(AddLine(items, item)) == LinesTotal(items) + item.price * item.qty
    ensures forall k :: 0 <= k < |items| && items[k].id == item.id ==>
      LinesTotal(AddLine(items, item)) == LinesTotal(items) + items[k].price * item.qty
  {
    if HasId(items, item.id) {
      var k :| 0 <= k < |items| && items[k].id == item.id;
      SingleLine(items, k);
      PlusCount(items, item.id, item.qty);
      PlusTotal(items, item.id, item.qty);
      forall j | 0 <= j < |items| && items[j].id == item.id
        ensures LinesTotal(AddLine(items, item)) == LinesTotal(items) + items[j].price * item.qty
      {
        assert j == k;
      }
    } else {
      SumsOfConcat(items, [item]);
    }
  }

  /** `add` applied in turn to each element of `adds`, as successive store actions. */
  function AddAll(items: seq<CartItem>, adds: seq<CartItem>): seq<CartItem>
    decreases |adds|
  {
    if adds == [] then items else AddAll(AddLine(items, adds[0]), adds[1..])
  }

  /** The units of product `id` among the incoming items. */
  function AddedQty(adds: seq<CartItem>, id: string): int {
    if adds == [] then 0 else (if adds[0].id == id then adds[0].qty else 0) + AddedQty(adds[1..], id)
  }

  /**
   * The merge invariant: after any run of `add`s, the cart still has one line per product and
   * each product's units are what was there plus the sum of all quantities added for it.
   */
  lemma {:induction false} MergeInvariant(items: seq<CartItem>, adds: seq<CartItem>, id: string)
    requires UniqueIds(items)
    ensures UniqueIds(AddAll(items, adds))
    ensures QtyOf(AddAll(items, adds), id) == QtyOf(items, id) + AddedQty(adds, id)
    decreases |adds|
  {
    if adds != [] {
      AddKeepsIdsUnique(items, adds[0]);
      AddMergesQuantity(items, adds[0], id);
      MergeInvariant(AddLine(items, adds[0]), adds[1..], id);
    }
  }

  /** `remove` of an absent id changes nothing. */
  lemma {:induction false} RemoveAbsent(items: seq<CartItem>, id: string)
    requires !HasId(items, id)
    ensures Without(items, id) == items
  {
    FilterKeepsAll(items, IdIsNot(id));
  }

  /** `remove(id)` takes away exactly the units of that product. */
  lemma {:induction false} RemoveCount(items: seq<CartItem>, id: string)
    ensures LinesCount(Without(items, id)) == LinesCount(items) - QtyOf(items, id)
  {
    if items != [] {
      RemoveCount(items[1..], id);
    }
  }

  /** `remove` keeps one line per product. */
  lemma {:induction false} RemoveKeepsIdsUnique(items: seq<CartItem>, id: string)
    requires UniqueIds(items)
    ensures UniqueIds(Without(items, id))
  {
    FilterKeepsIdsUnique(items, IdIsNot(id));
  }

  /** Filtering a list with unique ids leaves unique ids. */
  lemma {:induction false} FilterKeepsIdsUnique(items: seq<CartItem>, test: LineTest)
    ensures UniqueIds(items) ==> UniqueIds(FilterLines(items, test))
  {
    if items != [] && UniqueIds(items) {
      FilterKeepsIdsUnique(items[1..], test);
      var rest := FilterLines(items[1..], test);
      assert forall k :: 0 <= k < |rest| ==> rest[k] in items[1..];
    }
  }

  /** Filtering goes line by line: it splits over concatenation, so the kept lines stay in their order. */
  lemma {:induction false} FilterLinesConcat(a: seq<CartItem>, b: seq<CartItem>, test: LineTest)
    ensures FilterLines(a + b, test) == FilterLines(a, test) + FilterLines(b, test)
  {
    if a == [] {
      assert a + b == b;
    } else {
      assert (a + b)[1..] == a[1..] + b;
      FilterLinesConcat(a[1..], b, test);
    }
  }

  /** A single line is kept exactly when it passes the test. */
  lemma FilterLinesSingle(line: CartItem, test: LineTest)
    ensures FilterLines([line], test) == if Passes(test, line) then [line] else []
  {
  }

  /**
   * `remove` keeps the rest in order: removing from a concatenation removes from each part,
   * and a single line is dropped exactly when it carries the id.
   */
  lemma RemoveKeepsOrder(a: seq<CartItem>, b: seq<CartItem>, id: string, line: CartItem)
    ensures Without(a + b, id) == Without(a, id) + Without(b, id)
    ensures Without([line], id) == if line.id == id then [] else [line]
  {
    FilterLinesConcat(a, b, IdIsNot(id));
  }

  /** The per-id `map` works line by line, so it too splits over concatenation. */
  lemma UpdateQtyConcat(a: seq<CartItem>, b: seq<CartItem>, id: string, change: QtyChange)
    ensures UpdateQty(a + b, id, change) == UpdateQty(a, id, change) + UpdateQty(b, id, change)
  {
    var l, r := UpdateQty(a + b, id, change), UpdateQty(a, id, change) + UpdateQty(b, id, change);
    assert |l| == |r|;
    forall k | 0 <= k < |l|
      ensures l[k] == r[k]
    {
      if k >= |a| {
        assert (a + b)[k] == b[k - |a|];
      }
    }
  }

  /**
   * `decrement` keeps the surviving lines in order: it splits over concatenation, and a single
   * line is lowered if it is the target and then kept exactly when its quantity is positive.
   */
  lemma DecrementKeepsOrder(a: seq<CartItem>, b: seq<CartItem>, id: string, line: CartItem)
    ensures Decremented(a + b, id) == Decremented(a, id) + Decremented(b, id)
    ensures var lowered := if line.id == id then line.(qty := Apply(LowerClamped, line.qty)) else line;
      Decremented([line], id) == if lowered.qty > 0 then [lowered] else []
  {
    UpdateQtyConcat(a, b, id, LowerClamped);
    FilterLinesConcat(UpdateQty(a, id, LowerClamped), UpdateQty(b, id, LowerClamped), QtyPositive);
  }

  /** `increment(id)` raises `count()` by one per matching line, and keeps ids unique. */
  lemma IncrementCount(items: seq<CartItem>, id: string)
    ensures LinesCount(Bumped(items, id)) == LinesCount(items) + Occurrences(items, id)
    ensures UniqueIds(items) ==> UniqueIds(Bumped(items, id))
  {
    PlusCount(items, id, 1);
  }

  /**
   * On a cart whose quantities are positive (the only carts the actions build from positive
   * adds), `decrement` removes nothing: the filter after the clamp never fires, and the
   * target line becomes max(1, qty - 1).
   */
  lemma {:induction false} DecrementNeverRemoves(items: seq<CartItem>, id: string)
    requires AllPositive(items)
    ensures Decremented(items, id) == UpdateQty(items, id, LowerClamped)
  {
    var lowered := UpdateQty(items, id, LowerClamped);
    FilterKeepsAll(lowered, QtyPositive);
  }

  lemma {:induction false} FilterKeepsAll(items: seq<CartItem>, test: LineTest)
    requires forall k :: 0 <= k < |items| ==> Passes(test, items[k])
    ensures FilterLines(items, test) == items
  {
    if items != [] {
      FilterKeepsAll(items[1..], test);
    }
  }

  /** The target of `decrement` is never removed, whatever its quantity was. */
  lemma DecrementKeepsTarget(items: seq<CartItem>, id: string)
    requires HasId(items, id)
    ensures HasId(Decremented(items, id), id)
  {
    var k :| 0 <= k < |items| && items[k].id == id;
    var lowered := UpdateQty(items, id, LowerClamped);
    assert lowered[k] in lowered && lowered[k].qty >= 1;
    var r := Decremented(items, id);
    assert lowered[k] in r;
    var j :| 0 <= j < |r| && r[j] == lowered[k];
  }

  /** The concrete merge scenario: two adds of "p1" at 100 leave one line of 3 units, total 300. */
  lemma MergeScenario(p1a: CartItem, p1b: CartItem)
    requires p1a.id == "p1" && p1a.price == 100 && p1a.qty == 1
    requires p1b.id == "p1" && p1b.price == 100 && p1b.qty == 2
    ensures AddLine(AddLine([], p1a), p1b) == [p1a.(qty := 3)]
    ensures LinesTotal(AddLine(AddLine([], p1a), p1b)) == 300
    ensures LinesCount(AddLine(AddLine([], p1a), p1b)) == 3
  {
    var once := AddLine([], p1a);
    assert once == [p1a];
    assert HasId(once, p1b.id) by { assert once[0].id == p1b.id; }
  }
}
