/** src/utils/computeTotal.ts: the money total of a list of line items. */
module Totals {
  import opened Wrappers
  import opened Types

  /** One item's contribution: price times quantity, a falsy field counting as 0. */
  function LineAmount(it: Item): (r: int)
    ensures !Falsy(it.price) && !Falsy(it.quantity) ==> r == it.price.n * it.quantity.n
  {
    NumberOr(it.price, 0) * NumberOr(it.quantity, 0)
  }

  /** Reference definition: the line amounts added up from the front of the list. */
  function SumOfLines(items: seq<Item>): int {
    if items == [] then 0 else LineAmount(items[0]) + SumOfLines(items[1..])
  }

  /** `items.reduce((sum, it) => sum + price * qty, acc)`: a left fold. */
  function Reduce(acc: int, items: seq<Item>): (r: int)
    ensures r == acc + SumOfLines(items)
    decreases |items|
  {
    if items == [] then acc else Reduce(acc + LineAmount(items[0]), items[1..])
  }

  /** `computeTotal(items)`: 0 for an absent or empty list, else the fold from 0. */
  function ComputeTotal(items: Option<seq<Item>>): (r: int)
    ensures items.None? ==> r == 0
    ensures items.Some? ==> r == SumOfLines(items.value)
  {
    if items.None? || |items.value| == 0 then 0 else Reduce(0, items.value)
  }

  /** An item whose price or quantity is falsy adds nothing. */
  lemma FalsyFieldAddsNothing(it: Item)
    requires Falsy(it.price) || Falsy(it.quantity)
    ensures LineAmount(it) == 0
  {
  }

  /** The total of a concatenation is the sum of the totals of the parts. */
  lemma {:induction false} TotalOfConcat(a: seq<Item>, b: seq<Item>)
    ensures SumOfLines(a + b) == SumOfLines(a) + SumOfLines(b)
  {
    if a == [] {
      assert a + b == b;
    } else {
      assert (a + b)[1..] == a[1..] + b;
      TotalOfConcat(a[1..], b);
    }
  }

  /** Appending one item adds exactly that item's amount. */
  lemma TotalOfAppend(items: seq<Item>, it: Item)
    ensures ComputeTotal(Some(items + [it])) == ComputeTotal(Some(items)) + LineAmount(it)
  {
    TotalOfConcat(items, [it]);
  }

  predicate NonNegativeAmounts(items: seq<Item>) {
    forall i :: 0 <= i < |items| ==> NumberOr(items[i].price, 0) >= 0 && NumberOr(items[i].quantity, 0) >= 0
  }

  /** Non-negative prices and quantities give a non-negative total. */
  lemma {:induction false} TotalNonNegative(items: seq<Item>)
    requires NonNegativeAmounts(items)
    ensures ComputeTotal(Some(items)) >= 0
  {
    if items != [] {
      TotalNonNegative(items[1..]);
    }
  }

  /** 1000 x 2 plus 500 x 1 is 2500. */
  lemma TwoLinesExample(a: Item, b: Item)
    requires a.price == Num(1000) && a.quantity == Num(2)
    requires b.price == Num(500) && b.quantity == Num(1)
    ensures ComputeTotal(Some([a, b])) == 2500
  {
    assert [a, b][1..] == [b];
    assert SumOfLines([b]) == 500;
  }
}
