/** src/components/custom/ViewOrder.tsx: the `totals` derivation of the order preview. */
module ViewOrder {
  import opened Wrappers
  import opened Types
  import opened Totals
  import opened OrderStore

  /** One row of the preview. */
  datatype Line = Line(id: string, title: string, qty: int, unit: int, subtotal: int)

  datatype Preview = Preview(lines: seq<Line>, total: int, totalQty: int)

  /** A number is used as is, anything else becomes `Number(x ?? 0)`. */
  function LineOf(it: Item): (l: Line)
    ensures l.id == it.id && l.title == it.title
    ensures l.qty == NumberOr(it.quantity, 0) && l.unit == NumberOr(it.price, 0)
    ensures l.subtotal == l.unit * l.qty == LineAmount(it)
  {
    var qty := NumberOrNullish(it.quantity, 0);
    var unit := NumberOrNullish(it.price, 0);
    Line(it.id, it.title, qty, unit, unit * qty)
  }

  function Lines(items: seq<Item>): (r: seq<Line>)
    ensures |r| == |items|
    ensures forall i :: 0 <= i < |r| ==> r[i] == LineOf(items[i])
  {
    seq(|items|, i requires 0 <= i < |items| => LineOf(items[i]))
  }

  /** Reference definitions: the subtotals, and the quantities, of the lines added up. */
  function SubtotalSum(lines: seq<Line>): int {
    if lines == [] then 0 else lines[0].subtotal + SubtotalSum(lines[1..])
  }

  function QtySum(lines: seq<Line>): int {
    if lines == [] then 0 else lines[0].qty + QtySum(lines[1..])
  }

  /** `lines.reduce((s, l) => s + l.subtotal, acc)` */
  function SumSubtotals(acc: int, lines: seq<Line>): (r: int)
    ensures r == acc + SubtotalSum(lines)
    ensures (forall i :: 0 <= i < |lines| ==> lines[i].subtotal >= 0) ==> r >= acc
    decreases |lines|
  {
    if lines == [] then acc else SumSubtotals(acc + lines[0].subtotal, lines[1..])
  }

  /** `lines.reduce((s, l) => s + l.qty, acc)` */
  function SumQty(acc: int, lines: seq<Line>): (r: int)
    ensures r == acc + QtySum(lines)
    ensures (forall i :: 0 <= i < |lines| ==> lines[i].qty >= 0) ==> r >= acc
    decreases |lines|
  {
    if lines == [] then acc else SumQty(acc + lines[0].qty, lines[1..])
  }

  /** Reference definition: the quantities of the items added up, a missing one counting 0. */
  function QuantityOfItems(items: seq<Item>): int {
    if items == [] then 0 else NumberOr(items[0].quantity, 0) + QuantityOfItems(items[1..])
  }

  /** Folding the subtotals gives the same sum as `computeTotal`. */
  lemma {:induction false} SubtotalsAddUpToTotal(acc: int, items: seq<Item>)
    ensures SumSubtotals(acc, Lines(items)) == acc + SumOfLines(items)
    decreases |items|
  {
    if items != [] {
      assert Lines(items)[1..] == Lines(items[1..]);
      SubtotalsAddUpToTotal(acc + LineAmount(items[0]), items[1..]);
    }
  }

  /** Folding the line quantities gives the items' total quantity. */
  lemma {:induction false} QuantitiesAddUp(acc: int, items: seq<Item>)
    ensures SumQty(acc, Lines(items)) == acc + QuantityOfItems(items)
    decreases |items|
  {
    if items != [] {
      assert Lines(items)[1..] == Lines(items[1..]);
      QuantitiesAddUp(acc + NumberOr(items[0].quantity, 0), items[1..]);
    }
  }

  /**
   * `totals`: one line per draft item in order; the draft's own total when it
   * has one, otherwise the same sum `computeTotal` gives; the total quantity.
   */
  function ComputeTotals(d: Draft): (p: Preview)
    ensures |p.lines| == |d.lunch|
    ensures forall i :: 0 <= i < |p.lines| ==>
      && p.lines[i].id == d.lunch[i].id
      && p.lines[i].qty == NumberOr(d.lunch[i].quantity, 0)
      && p.lines[i].unit == NumberOr(d.lunch[i].price, 0)
      && p.lines[i].subtotal == p.lines[i].unit * p.lines[i].qty
    ensures p.total == if d.total.Some? then d.total.value else ComputeTotal(Some(d.lunch))
    ensures p.totalQty == QuantityOfItems(d.lunch)
  {
    var lines := Lines(d.lunch);
    SubtotalsAddUpToTotal(0, d.lunch);
    QuantitiesAddUp(0, d.lunch);
    Preview(lines, d.total.GetOr(SumSubtotals(0, lines)), SumQty(0, lines))
  }

  /** A draft holding three of a 1000 lunch and no total previews 3000 for 3 items. */
  lemma ThreeOfOneExample(d: Draft)
    requires d.lunch == [Item("1", "Bandeja", "", Num(1000), [], Num(3))] && d.total.None?
    ensures ComputeTotals(d).total == 3000 && ComputeTotals(d).totalQty == 3
  {
    assert SumOfLines(d.lunch) == 3000;
    assert QuantityOfItems(d.lunch) == 3;
  }
}
