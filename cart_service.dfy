/**
  The cart store (`CartService`): the list of cart lines, the two published
  totals channels and the durable copy of the list under the storage key
  'cartItems'.

  A channel is modelled by the sequence of every value published on it; it
  starts with the channel's initial value 0, so the last element is the value
  a subscriber currently sees. The storage entry is `None` while the key is
  absent and `Some(lines)` once a list has been written.
 */
module CartStore {
  import opened Wrappers
  import opened Common
  import opened CartLines

  /** The summing loop of `computeCartTotals`. */
  method SumTotals(lines: seq<CartItem>) returns (totalPrice: int, totalQuantity: int)
    ensures totalPrice == SumPrice(lines)
    ensures totalQuantity == SumQuantity(lines)
  {
    totalPrice, totalQuantity := 0, 0;
    for i := 0 to |lines|
      invariant totalPrice == SumPrice(lines[..i])
      invariant totalQuantity == SumQuantity(lines[..i])
    {
      assert lines[..i + 1][..i] == lines[..i];
      totalPrice := totalPrice + lines[i].quantity * lines[i].unitPrice;
      totalQuantity := totalQuantity + lines[i].quantity;
    }
    assert lines[..|lines|] == lines;
  }

  class Cart {
    /** `cartItems` */
    var lines: seq<CartItem>
    /** Every value published on `totalPrice`, oldest first. */
    var publishedPrices: seq<int>
    /** Every value published on `totalQuantity`, oldest first. */
    var publishedQuantities: seq<int>
    /** The storage entry 'cartItems'. */
    var stored: Option<seq<CartItem>>

    /** The totals a subscriber currently sees are the sums over the current lines. */
    ghost predicate Valid()
      reads this
    {
      && |publishedPrices| > 0
      && |publishedQuantities| > 0
      && TotalPrice() == SumPrice(lines)
      && TotalQuantity() == SumQuantity(lines)
    }

    /** The last value published on `totalPrice`. */
    function TotalPrice(): int
      reads this
      requires |publishedPrices| > 0
    {
      publishedPrices[|publishedPrices| - 1]
    }

    /** The last value published on `totalQuantity`. */
    function TotalQuantity(): int
      reads this
      requires |publishedQuantities| > 0
    {
      publishedQuantities[|publishedQuantities| - 1]
    }

    /**
      Restores the list from storage when the entry is there, otherwise starts
      empty, then recomputes, publishes and stores the totals once.
     */
    constructor (storage: Option<seq<CartItem>>)
      ensures lines == (if storage.Some? then storage.value else [])
      ensures publishedPrices == [0, SumPrice(lines)]
      ensures publishedQuantities == [0, SumQuantity(lines)]
      ensures stored == Some(lines)
      ensures Valid()
    {
      lines := [];
      publishedPrices := [0];
      publishedQuantities := [0];
      stored := storage;
      new;
      var data := storage;
      if data.Some? {
        lines := data.value;
      }
      ComputeCartTotals();
    }

    /** `persistCartItems`: the whole list overwrites the storage entry. */
    method PersistCartItems()
      modifies this
      ensures stored == Some(lines)
      ensures lines == old(lines)
      ensures publishedPrices == old(publishedPrices) && publishedQuantities == old(publishedQuantities)
    {
      stored := Some(lines);
    }

    /**
      `computeCartTotals`: publishes the sums over the lines on both channels
      and writes the list to storage. Every change of the lines that the
      store makes ends here.
     */
    method ComputeCartTotals()
      modifies this
      ensures lines == old(lines)
      ensures publishedPrices == old(publishedPrices) + [SumPrice(lines)]
      ensures publishedQuantities == old(publishedQuantities) + [SumQuantity(lines)]
      ensures stored == Some(lines)
      ensures Valid()
    {
      var totalPriceValue, totalQuantityValue := SumTotals(lines);
      publishedPrices := publishedPrices + [totalPriceValue];
      publishedQuantities := publishedQuantities + [totalQuantityValue];
      PersistCartItems();
    }

    /** `addToCart`: one more unit of the line with the item's id, or the item appended. */
    method AddToCart(item: CartItem)
      modifies this
      ensures lines == AddedLines(old(lines), item)
      ensures publishedPrices == old(publishedPrices) + [SumPrice(lines)]
      ensures publishedQuantities == old(publishedQuantities) + [SumQuantity(lines)]
      ensures stored == Some(lines)
      ensures Valid()
      ensures DistinctIds(old(lines)) ==> DistinctIds(lines)
      ensures PositiveQuantities(old(lines)) && item.quantity >= 1 ==> PositiveQuantities(lines)
    {
      AddKeepsInvariant(lines, item);
      var index := -1;
      if |lines| > 0 {
        index := FindIndex(lines, item.id);
      }
      if index >= 0 {
        lines := lines[index := lines[index].(quantity := lines[index].quantity + 1)];
      } else {
        lines := lines + [item];
      }
      ComputeCartTotals();
    }

    /**
      `remove`: splices out the first line with the item's id. When there is
      none, nothing happens: no line changes, nothing is published and
      storage is not written.
     */
    method Remove(item: CartItem)
      modifies this
      ensures lines == RemovedLines(old(lines), item.id)
      ensures IndexOf(old(lines), item.id) >= 0 ==>
                && publishedPrices == old(publishedPrices) + [SumPrice(lines)]
                && publishedQuantities == old(publishedQuantities) + [SumQuantity(lines)]
                && stored == Some(lines)
                && Valid()
      ensures IndexOf(old(lines), item.id) < 0 ==>
                && publishedPrices == old(publishedPrices)
                && publishedQuantities == old(publishedQuantities)
                && stored == old(stored)
      ensures DistinctIds(old(lines)) ==> DistinctIds(lines)
      ensures PositiveQuantities(old(lines)) ==> PositiveQuantities(lines)
    {
      RemoveKeepsInvariant(lines, item.id);
      var itemIndex := FindIndex(lines, item.id);
      if itemIndex > -1 {
        lines := lines[..itemIndex] + lines[itemIndex + 1..];
        ComputeCartTotals();
      }
    }

    /**
      `decrementQuantity`: the item handed in is taken to be the cart's own
      line with that id, and loses one unit; at zero it is removed, otherwise
      the totals are recomputed.
     */
    method DecrementQuantity(item: CartItem)
      requires Valid()
      modifies this
      ensures lines == DecrementedLines(old(lines), item)
      ensures DecrementPublishes(old(lines), item) ==>
                && publishedPrices == old(publishedPrices) + [SumPrice(lines)]
                && publishedQuantities == old(publishedQuantities) + [SumQuantity(lines)]
                && stored == Some(lines)
      ensures !DecrementPublishes(old(lines), item) ==>
                && publishedPrices == old(publishedPrices)
                && publishedQuantities == old(publishedQuantities)
                && stored == old(stored)
      ensures Valid()
      ensures DistinctIds(old(lines)) ==> DistinctIds(lines)
      ensures PositiveQuantities(old(lines)) ==> PositiveQuantities(lines)
    {
      DecrementKeepsInvariant(lines, item);
      var index := FindIndex(lines, item.id);
      var quantity := (if index >= 0 then lines[index].quantity else item.quantity) - 1;
      if index >= 0 {
        SameIdsSameIndex(lines, index, quantity, item.id);
        lines := lines[index := lines[index].(quantity := quantity)];
      }
      if quantity == 0 {
        Remove(item.(quantity := quantity));
      } else {
        ComputeCartTotals();
      }
    }
  }

  /** Changing a quantity moves no line, so every lookup by id finds the same index. */
  lemma SameIdsSameIndex(lines: seq<CartItem>, i: int, q: int, id: string)
    requires 0 <= i < |lines|
    ensures IndexOf(WithQuantity(lines, i, q), id) == IndexOf(lines, id)
    ensures Without(WithQuantity(lines, i, q), i) == Without(lines, i)
  {
    var after := WithQuantity(lines, i, q);
    assert forall j :: 0 <= j < |lines| ==> after[j].id == lines[j].id;
    assert after[..i] == lines[..i];
    assert after[i + 1..] == lines[i + 1..];
  }
}
