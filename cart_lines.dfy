/**
  The cart's line list as a value: lookup by product id, the totals derived
  from the lines, and what adding, decrementing and removing do to the list.
  The Cart class (module CartStore) is proved to change its lines exactly as
  these functions say; the lemmas here state what the changes mean.
 */
module CartLines {
  import opened Common

  /** Index of the first line with this id, or -1 (`Array.prototype.findIndex`). */
  function IndexOf(lines: seq<CartItem>, id: string): (r: int)
    ensures -1 <= r < |lines|
    ensures 0 <= r ==> lines[r].id == id && forall j :: 0 <= j < r ==> lines[j].id != id
    ensures r < 0 ==> forall j :: 0 <= j < |lines| ==> lines[j].id != id
  {
    if |lines| == 0 then -1
    else if lines[0].id == id then 0
    else
      var k := IndexOf(lines[1..], id);
      if k < 0 then -1 else k + 1
  }

  /** The search loop behind `find` and `findIndex`. */
  method FindIndex(lines: seq<CartItem>, id: string) returns (index: int)
    ensures index == IndexOf(lines, id)
  {
    index := 0;
    while index < |lines| && lines[index].id != id
      invariant 0 <= index <= |lines|
      invariant forall j :: 0 <= j < index ==> lines[j].id != id
    {
      index := index + 1;
    }
    if index == |lines| {
      index := -1;
    }
  }

  /** At most one line per product id. */
  ghost predicate DistinctIds(lines: seq<CartItem>) {
    forall i, j :: 0 <= i < j < |lines| ==> lines[i].id != lines[j].id
  }

  /** Every line holds at least one unit. */
  ghost predicate PositiveQuantities(lines: seq<CartItem>) {
    forall i :: 0 <= i < |lines| ==> lines[i].quantity >= 1
  }

  /** The ids present in the cart. */
  ghost function Ids(lines: seq<CartItem>): set<string> {
    set i | 0 <= i < |lines| :: lines[i].id
  }

  /** Sum of the quantities, accumulated front to back. */
  function SumQuantity(lines: seq<CartItem>): int {
    if |lines| == 0 then 0 else SumQuantity(lines[..|lines| - 1]) + lines[|lines| - 1].quantity
  }

  /** Sum of quantity times unit price, accumulated front to back. */
  function SumPrice(lines: seq<CartItem>): int {
    if |lines| == 0 then 0 else SumPrice(lines[..|lines| - 1]) + Subtotal(lines[|lines| - 1])
  }

  /** The list with the quantity of line `i` set to `q`. */
  function WithQuantity(lines: seq<CartItem>, i: int, q: int): seq<CartItem>
    requires 0 <= i < |lines|
  {
    lines[i := lines[i].(quantity := q)]
  }

  /** The list with line `i` spliced out. */
  function Without(lines: seq<CartItem>, i: int): seq<CartItem>
    requires 0 <= i < |lines|
  {
    lines[..i] + lines[i + 1..]
  }

  /**
    `addToCart`: one more unit of the line with the item's id, or the item
    appended. The cart grows by a line only for a new id, and the item count
    by one unit for a known id or by the item's units for a new one.
   */
  function AddedLines(lines: seq<CartItem>, item: CartItem): (r: seq<CartItem>)
    ensures |r| == |lines| + (if IndexOf(lines, item.id) >= 0 then 0 else 1)
    ensures SumQuantity(r) == SumQuantity(lines) + (if IndexOf(lines, item.id) >= 0 then 1 else item.quantity)
  {
    var i := IndexOf(lines, item.id);
    if i >= 0 then
      SumsAfterQuantityChange(lines, i, lines[i].quantity + 1);
      WithQuantity(lines, i, lines[i].quantity + 1)
    else
      SumsAfterAppend(lines, item);
      lines + [item]
  }

  /**
    `remove`: the first line with the id spliced out, if there is one. The
    cart loses one line exactly when the id is present, and the item count
    drops by the units held for that id.
   */
  function RemovedLines(lines: seq<CartItem>, id: string): (r: seq<CartItem>)
    ensures |r| == |lines| - (if IndexOf(lines, id) >= 0 then 1 else 0)
    ensures SumQuantity(r) == SumQuantity(lines) - QuantityOf(lines, id)
  {
    var i := IndexOf(lines, id);
    if i >= 0 then
      SumsAfterRemoval(lines, i);
      Without(lines, i)
    else
      lines
  }

  /**
    `decrementQuantity`: one unit fewer on the line with the item's id, and
    the line removed when that leaves zero units. The item count drops by
    exactly one unit when the id is present, and the cart loses a line
    exactly when that line held a single unit.
   */
  function DecrementedLines(lines: seq<CartItem>, item: CartItem): (r: seq<CartItem>)
    ensures SumQuantity(r) == SumQuantity(lines) - (if IndexOf(lines, item.id) >= 0 then 1 else 0)
    ensures |r| == |lines| - (if QuantityOf(lines, item.id) == 1 && IndexOf(lines, item.id) >= 0 then 1 else 0)
  {
    var i := IndexOf(lines, item.id);
    if i < 0 then lines
    else if lines[i].quantity - 1 == 0 then
      SumsAfterRemoval(lines, i);
      Without(lines, i)
    else
      SumsAfterQuantityChange(lines, i, lines[i].quantity - 1);
      WithQuantity(lines, i, lines[i].quantity - 1)
  }

  /**
    Whether `decrementQuantity` recomputes (and so publishes and stores) the
    totals. With the id in the cart it always does. With the id absent the
    source still decrements the object it was given: when that reaches zero
    it calls `remove`, which finds nothing and does nothing; otherwise it
    recomputes the totals of the unchanged list.
   */
  predicate DecrementPublishes(lines: seq<CartItem>, item: CartItem) {
    IndexOf(lines, item.id) >= 0 || item.quantity - 1 != 0
  }

  // ---------------------------------------------------------------------
  // Totals

  lemma {:induction false} SumsOfConcat(a: seq<CartItem>, b: seq<CartItem>)
    ensures SumQuantity(a + b) == SumQuantity(a) + SumQuantity(b)
    ensures SumPrice(a + b) == SumPrice(a) + SumPrice(b)
  {
    if |b| == 0 {
      assert a + b == a;
    } else {
      var b' := b[..|b| - 1];
      assert (a + b)[..|a + b| - 1] == a + b';
      SumsOfConcat(a, b');
    }
  }

  /** The totals split around line `i`. */
  lemma SumsAround(lines: seq<CartItem>, i: int)
    requires 0 <= i < |lines|
    ensures SumQuantity(lines) == SumQuantity(lines[..i]) + lines[i].quantity + SumQuantity(lines[i + 1..])
    ensures SumPrice(lines) == SumPrice(lines[..i]) + Subtotal(lines[i]) + SumPrice(lines[i + 1..])
  {
    assert lines == lines[..i] + [lines[i]] + lines[i + 1..];
    SumsOfConcat(lines[..i] + [lines[i]], lines[i + 1..]);
    SumsOfConcat(lines[..i], [lines[i]]);
    assert [lines[i]][..0] == [];
  }

  /** Changing one line's quantity changes the totals by that line's difference. */
  lemma SumsAfterQuantityChange(lines: seq<CartItem>, i: int, q: int)
    requires 0 <= i < |lines|
    ensures SumQuantity(WithQuantity(lines, i, q)) == SumQuantity(lines) - lines[i].quantity + q
    ensures SumPrice(WithQuantity(lines, i, q)) == SumPrice(lines) - Subtotal(lines[i]) + q * lines[i].unitPrice
  {
    var after := WithQuantity(lines, i, q);
    SumsAround(lines, i);
    SumsAround(after, i);
    assert after[..i] == lines[..i];
    assert after[i + 1..] == lines[i + 1..];
  }

  /** Splicing out a line takes exactly its quantity and subtotal off the totals. */
  lemma SumsAfterRemoval(lines: seq<CartItem>, i: int)
    requires 0 <= i < |lines|
    ensures SumQuantity(Without(lines, i)) == SumQuantity(lines) - lines[i].quantity
    ensures SumPrice(Without(lines, i)) == SumPrice(lines) - Subtotal(lines[i])
  {
    SumsAround(lines, i);
    SumsOfConcat(lines[..i], lines[i + 1..]);
  }

  lemma SumsAfterAppend(lines: seq<CartItem>, item: CartItem)
    ensures SumQuantity(lines + [item]) == SumQuantity(lines) + item.quantity
    ensures SumPrice(lines + [item]) == SumPrice(lines) + Subtotal(item)
  {
    assert (lines + [item])[..|lines|] == lines;
  }

  // ---------------------------------------------------------------------
  // Adding

  /**
    Adding an item whose id is already in the cart keeps the length, raises
    that line's quantity by exactly one, changes no other line, and raises the
    totals by one unit of that line.
   */
  lemma AddExisting(lines: seq<CartItem>, item: CartItem)
    requires IndexOf(lines, item.id) >= 0
    ensures var i := IndexOf(lines, item.id);
            var after := AddedLines(lines, item);
            && |after| == |lines|
            && after[i] == lines[i].(quantity := lines[i].quantity + 1)
            && (forall j :: 0 <= j < |lines| && j != i ==> after[j] == lines[j])
            && SumQuantity(after) == SumQuantity(lines) + 1
            && SumPrice(after) == SumPrice(lines) + lines[i].unitPrice
  {
    var i := IndexOf(lines, item.id);
    var after := WithQuantity(lines, i, lines[i].quantity + 1);
    assert AddedLines(lines, item) == after;
    SumsAfterQuantityChange(lines, i, lines[i].quantity + 1);
    assert SumPrice(after) == SumPrice(lines) + lines[i].unitPrice by {
      assert (lines[i].quantity + 1) * lines[i].unitPrice == Subtotal(lines[i]) + lines[i].unitPrice;
    }
  }

  /**
    Adding an item whose id is absent appends it unchanged; the existing lines
    are untouched and the totals grow by the item's quantity and subtotal.
   */
  lemma AddAbsent(lines: seq<CartItem>, item: CartItem)
    requires IndexOf(lines, item.id) < 0
    ensures var after := AddedLines(lines, item);
            && |after| == |lines| + 1
            && after[|lines|] == item
            && after[..|lines|] == lines
            && SumQuantity(after) == SumQuantity(lines) + item.quantity
            && SumPrice(after) == SumPrice(lines) + Subtotal(item)
  {
    SumsAfterAppend(lines, item);
  }

  /** Adding keeps ids distinct, and keeps quantities positive when the item has one. */
  lemma AddKeepsInvariant(lines: seq<CartItem>, item: CartItem)
    ensures DistinctIds(lines) ==> DistinctIds(AddedLines(lines, item))
    ensures PositiveQuantities(lines) && item.quantity >= 1 ==> PositiveQuantities(AddedLines(lines, item))
    ensures Ids(AddedLines(lines, item)) == Ids(lines) + {item.id}
  {
    var after := AddedLines(lines, item);
    var i := IndexOf(lines, item.id);
    if i >= 0 {
      assert forall j :: 0 <= j < |lines| ==> after[j].id == lines[j].id;
    } else {
      assert forall j :: 0 <= j < |lines| ==> after[j] == lines[j];
      assert after[|lines|] == item;
    }
  }

  // ---------------------------------------------------------------------
  // Removing

  /** Removing an id that is not in the cart changes nothing. */
  lemma RemoveAbsent(lines: seq<CartItem>, id: string)
    requires IndexOf(lines, id) < 0
    ensures RemovedLines(lines, id) == lines
  {
  }

  /** The lines left after splicing out line `i`, position by position. */
  lemma WithoutAt(lines: seq<CartItem>, i: int)
    requires 0 <= i < |lines|
    ensures |Without(lines, i)| == |lines| - 1
    ensures forall j :: 0 <= j < i ==> Without(lines, i)[j] == lines[j]
    ensures forall j :: i <= j < |lines| - 1 ==> Without(lines, i)[j] == lines[j + 1]
  {
  }

  /**
    Removing a present id deletes exactly its first line `i`: one line fewer,
    the others kept in their order, the totals lowered by that line; with
    distinct ids the id is then gone from the cart.
   */
  lemma RemovePresent(lines: seq<CartItem>, id: string, i: int)
    requires i == IndexOf(lines, id) && i >= 0
    ensures |RemovedLines(lines, id)| == |lines| - 1
    ensures forall j :: 0 <= j < i ==> RemovedLines(lines, id)[j] == lines[j]
    ensures forall j :: i <= j < |lines| - 1 ==> RemovedLines(lines, id)[j] == lines[j + 1]
    ensures SumQuantity(RemovedLines(lines, id)) == SumQuantity(lines) - lines[i].quantity
    ensures SumPrice(RemovedLines(lines, id)) == SumPrice(lines) - Subtotal(lines[i])
    ensures DistinctIds(lines) ==> IndexOf(RemovedLines(lines, id), id) < 0
  {
    var after := Without(lines, i);
    WithoutAt(lines, i);
    SumsAfterRemoval(lines, i);
    if DistinctIds(lines) {
      forall j | 0 <= j < |after| ensures after[j].id != id {
        if j >= i {
          assert after[j] == lines[j + 1];
        }
      }
    }
  }

  /** Splicing out a line keeps ids distinct and quantities positive. */
  lemma WithoutKeepsInvariant(lines: seq<CartItem>, i: int)
    requires 0 <= i < |lines|
    ensures DistinctIds(lines) ==> DistinctIds(Without(lines, i))
    ensures PositiveQuantities(lines) ==> PositiveQuantities(Without(lines, i))
  {
    var after := Without(lines, i);
    assert forall j :: 0 <= j < |after| ==> after[j] == lines[if j < i then j else j + 1];
  }

  lemma RemoveKeepsInvariant(lines: seq<CartItem>, id: string)
    ensures DistinctIds(lines) ==> DistinctIds(RemovedLines(lines, id))
    ensures PositiveQuantities(lines) ==> PositiveQuantities(RemovedLines(lines, id))
  {
    var i := IndexOf(lines, id);
    if i >= 0 {
      WithoutKeepsInvariant(lines, i);
    }
  }

  // ---------------------------------------------------------------------
  // Decrementing

  /** Decrementing an id that is not in the cart leaves the lines as they are. */
  lemma DecrementAbsent(lines: seq<CartItem>, item: CartItem)
    requires IndexOf(lines, item.id) < 0
    ensures DecrementedLines(lines, item) == lines
  {
  }

  /**
    Decrementing a line that holds one unit takes the line away, exactly as
    `remove` would: one line fewer and one unit less in the total.
   */
  lemma DecrementToZero(lines: seq<CartItem>, item: CartItem, i: int)
    requires i == IndexOf(lines, item.id) && i >= 0 && lines[i].quantity == 1
    ensures DecrementedLines(lines, item) == RemovedLines(lines, item.id)
    ensures |DecrementedLines(lines, item)| == |lines| - 1
    ensures SumQuantity(DecrementedLines(lines, item)) == SumQuantity(lines) - 1
    ensures SumPrice(DecrementedLines(lines, item)) == SumPrice(lines) - lines[i].unitPrice
  {
    SumsAfterRemoval(lines, i);
  }

  /**
    Decrementing a line that holds more than one unit keeps it with one unit
    fewer, and no other line changes.
   */
  lemma DecrementKeepsLine(lines: seq<CartItem>, item: CartItem, i: int)
    requires i == IndexOf(lines, item.id) && i >= 0 && lines[i].quantity != 1
    ensures |DecrementedLines(lines, item)| == |lines|
    ensures DecrementedLines(lines, item)[i] == lines[i].(quantity := lines[i].quantity - 1)
    ensures forall j :: 0 <= j < |lines| && j != i ==> DecrementedLines(lines, item)[j] == lines[j]
  {
  }

  /** Decrementing a line that holds more than one unit lowers the totals by one unit of it. */
  lemma DecrementKeepsLineTotals(lines: seq<CartItem>, item: CartItem, i: int)
    requires i == IndexOf(lines, item.id) && i >= 0 && lines[i].quantity != 1
    ensures SumQuantity(DecrementedLines(lines, item)) == SumQuantity(lines) - 1
    ensures SumPrice(DecrementedLines(lines, item)) == SumPrice(lines) - lines[i].unitPrice
  {
    var q, u := lines[i].quantity, lines[i].unitPrice;
    assert DecrementedLines(lines, item) == WithQuantity(lines, i, q - 1);
    SumsAfterQuantityChange(lines, i, q - 1);
    assert (q - 1) * u == q * u - u;
  }

  /** Decrementing keeps ids distinct and keeps every quantity at one or more. */
  lemma DecrementKeepsInvariant(lines: seq<CartItem>, item: CartItem)
    ensures DistinctIds(lines) ==> DistinctIds(DecrementedLines(lines, item))
    ensures PositiveQuantities(lines) ==> PositiveQuantities(DecrementedLines(lines, item))
  {
    var i := IndexOf(lines, item.id);
    if i >= 0 {
      if lines[i].quantity - 1 == 0 {
        WithoutKeepsInvariant(lines, i);
      } else {
        var after := WithQuantity(lines, i, lines[i].quantity - 1);
        assert forall j :: 0 <= j < |lines| ==> after[j].id == lines[j].id;
      }
    }
  }

  // ---------------------------------------------------------------------
  // A run of additions

  /** The lines after adding each item in turn. */
  function AddAll(lines: seq<CartItem>, items: seq<CartItem>): seq<CartItem>
    decreases |items|
  {
    if |items| == 0 then lines else AddAll(AddedLines(lines, items[0]), items[1..])
  }

  /** The quantity held for an id; zero when it has no line. */
  function QuantityOf(lines: seq<CartItem>, id: string): int {
    var i := IndexOf(lines, id);
    if i >= 0 then lines[i].quantity else 0
  }

  /** How many of the items carry this id. */
  function CountOf(items: seq<CartItem>, id: string): nat {
    if |items| == 0 then 0 else (if items[0].id == id then 1 else 0) + CountOf(items[1..], id)
  }

  /** With distinct ids there are as many lines as ids. */
  lemma {:induction false} DistinctIdsCount(lines: seq<CartItem>)
    requires DistinctIds(lines)
    ensures |Ids(lines)| == |lines|
  {
    if |lines| > 0 {
      var init := lines[..|lines| - 1];
      DistinctIdsCount(init);
      assert Ids(lines) == Ids(init) + {lines[|lines| - 1].id};
      assert lines[|lines| - 1].id !in Ids(init);
    }
  }

  /**
    One addition raises that id's quantity by one and no other, when the id is
    already in the cart (whatever the item carries, as the cart view's "+"
    passes the line itself) or the new item holds a single unit.
   */
  lemma AddOneUnit(lines: seq<CartItem>, item: CartItem, id: string)
    requires IndexOf(lines, item.id) >= 0 || item.quantity == 1
    ensures QuantityOf(AddedLines(lines, item), id) == QuantityOf(lines, id) + (if item.id == id then 1 else 0)
  {
    var after := AddedLines(lines, item);
    var i := IndexOf(lines, item.id);
    var k := IndexOf(lines, id);
    if i >= 0 {
      assert forall j :: 0 <= j < |lines| ==> after[j].id == lines[j].id;
      assert IndexOf(after, id) == k;
    } else {
      assert forall j :: 0 <= j < |lines| ==> after[j] == lines[j];
      if item.id == id {
        assert after[|lines|].id == id;
        assert IndexOf(after, id) == |lines|;
      } else {
        assert IndexOf(after, id) == k;
      }
    }
  }

  /**
    A run of additions in which every item whose id is not yet in the cart at
    its step carries a single unit (a product page's `new CartItem(product)`);
    items whose id is present may carry anything.
   */
  ghost predicate NewIdsSingleUnit(lines: seq<CartItem>, items: seq<CartItem>)
    decreases |items|
  {
    |items| == 0
    || ((IndexOf(lines, items[0].id) >= 0 || items[0].quantity == 1)
        && NewIdsSingleUnit(AddedLines(lines, items[0]), items[1..]))
  }

  /**
    Starting from a cart, adding items one after another: the ids present are
    the old ones and the added ones, and ids stay distinct.
   */
  lemma {:induction false} AddAllKeepsIds(lines: seq<CartItem>, items: seq<CartItem>)
    ensures Ids(AddAll(lines, items)) == Ids(lines) + Ids(items)
    ensures DistinctIds(lines) ==> DistinctIds(AddAll(lines, items))
    decreases |items|
  {
    if |items| > 0 {
      var next := AddedLines(lines, items[0]);
      AddKeepsInvariant(lines, items[0]);
      AddAllKeepsIds(next, items[1..]);
      assert AddAll(lines, items) == AddAll(next, items[1..]);
      assert Ids(items) == {items[0].id} + Ids(items[1..]) by {
        assert forall k :: 0 < k < |items| ==> items[k] == items[1..][k - 1];
      }
    }
  }

  /**
    Starting from a cart, adding items one after another where new ids arrive
    with a single unit: each id's quantity grows by the number of additions of
    that id.
   */
  lemma {:induction false} AddAllCounts(lines: seq<CartItem>, items: seq<CartItem>)
    ensures NewIdsSingleUnit(lines, items) ==>
              forall id :: QuantityOf(AddAll(lines, items), id) == QuantityOf(lines, id) + CountOf(items, id)
    decreases |items|
  {
    if |items| > 0 && NewIdsSingleUnit(lines, items) {
      AddAllCounts(AddedLines(lines, items[0]), items[1..]);
      forall id ensures QuantityOf(AddAll(lines, items), id) == QuantityOf(lines, id) + CountOf(items, id) {
        AddOneUnit(lines, items[0], id);
      }
    }
  }

  /**
    Filling an empty cart: one line per distinct id added; when each product
    first arrives with a single unit (from the product page) and later
    additions of it are any items with that id (the cart view's "+"), each
    line's quantity is the number of times its id was added.
   */
  lemma FillEmptyCart(items: seq<CartItem>)
    ensures DistinctIds(AddAll([], items))
    ensures |AddAll([], items)| == |Ids(items)|
    ensures NewIdsSingleUnit([], items) ==> forall id :: QuantityOf(AddAll([], items), id) == CountOf(items, id)
  {
    AddAllKeepsIds([], items);
    AddAllCounts([], items);
    assert Ids([]) == {};
    DistinctIdsCount(AddAll([], items));
  }

  /**
    Adding a guitar from its product page, then pressing "+" twice in the cart
    view, which passes the cart's own line (one unit, then two): three units.
   */
  lemma ProductPageThenPlusTwice(guitar: CartItem)
    requires guitar.quantity == 1
    ensures var run := [guitar, guitar, guitar.(quantity := 2)];
            && NewIdsSingleUnit([], run)
            && AddAll([], run) == [guitar.(quantity := 3)]
            && QuantityOf(AddAll([], run), guitar.id) == 3
  {
    var run := [guitar, guitar, guitar.(quantity := 2)];
    var one := AddedLines([], guitar);
    assert one == [guitar];
    var two := AddedLines(one, guitar);
    assert IndexOf(one, guitar.id) == 0;
    assert two == [guitar.(quantity := 2)];
    assert IndexOf(two, guitar.id) == 0;
    var three := AddedLines(two, guitar.(quantity := 2));
    assert three == [guitar.(quantity := 3)];
    assert run[1..] == [guitar, guitar.(quantity := 2)];
    assert run[1..][1..] == [guitar.(quantity := 2)];
    assert run[1..][1..][1..] == [];
    assert AddAll(three, []) == three;
    assert AddAll(two, run[1..][1..]) == three;
    assert AddAll(one, run[1..]) == three;
    assert NewIdsSingleUnit(three, []);
    assert NewIdsSingleUnit(two, run[1..][1..]);
    assert NewIdsSingleUnit(one, run[1..]);
    FillEmptyCart(run);
  }
}
