/**
 * src/components/forms/OrderForm.tsx: the helpers that edit the draft's line
 * items, the locally computed total, and the submit sequence.
 */
module OrderForm {
  import opened Wrappers
  import opened Types
  import opened Totals
  import opened OrderStore
  import Lists

  /**
   * `(q ?? 1) + 1` as JavaScript evaluates it: numeric addition for a number
   * or an absent quantity, string concatenation for a textual one
   * ("" + 1 is "1", "12" + 1 is "121").
   */
  function Bump(q: Loose): (r: Loose)
    ensures r.Num? <==> q.Num? || q.Missing?
    ensures r.Num? ==> r.n == NumberOrNullish(q, 1) + 1
    ensures !r.Num? ==> r.Numeral? && (NumberOr(r, 0) == NumberOrNullish(q, 1) + 1 <==> q.Blank? || q == Numeral(0))
  {
    match q
    case Missing => Num(2)
    case Num(n) => Num(n + 1)
    case Blank => Numeral(1)
    case Numeral(n) => Numeral(if n >= 0 then 10 * n + 1 else 10 * n - 1)
  }

  /** `{ ...lunchToAdd, quantity: 1 }` */
  function NewItem(l: Lunch): (it: Item)
    ensures it.id == l.id && it.title == l.title && it.imagen == l.imagen && it.tags == l.tags
    ensures it.price == Num(l.price) && it.quantity == Num(1)
    ensures LineAmount(it) == l.price
  {
    Item(l.id, l.title, l.imagen, Num(l.price), l.tags, Num(1))
  }

  /** `current.find(l => l.id === id)` finds something. */
  predicate HasId(items: seq<Item>, id: string) {
    exists i :: 0 <= i < |items| && items[i].id == id
  }

  /** `addLunchToDraft`: bump the quantity of a lunch already listed, else append it with quantity 1. */
  function AddLunchToDraft(items: seq<Item>, l: Lunch): (r: seq<Item>)
    ensures HasId(items, l.id) <==> |r| == |items|
    ensures !HasId(items, l.id) ==> |r| == |items| + 1 && r[|items|] == NewItem(l)
    ensures forall i :: 0 <= i < |items| && items[i].id != l.id ==> r[i] == items[i]
    ensures forall i :: 0 <= i < |items| && items[i].id == l.id ==>
      r[i] == items[i].(quantity := Bump(items[i].quantity))
  {
    if HasId(items, l.id) then
      seq(|items|, i requires 0 <= i < |items| =>
        if items[i].id == l.id then items[i].(quantity := Bump(items[i].quantity)) else items[i])
    else
      items + [NewItem(l)]
  }

  /** `removeLunchFromDraft`: drop every item with that id. */
  function RemoveLunchFromDraft(items: seq<Item>, id: string): (r: seq<Item>)
    ensures !HasId(r, id)
    ensures forall i :: 0 <= i < |r| ==> r[i] in items
    ensures forall i :: 0 <= i < |items| && items[i].id != id ==> items[i] in r
  {
    Lists.Filter(items, (it: Item) => it.id != id)
  }

  /** `setQuantityForLunch`: the quantity, raised to 1 when below, written into the matching items. */
  function SetQuantityForLunch(items: seq<Item>, id: string, qty: int): (r: seq<Item>)
    ensures |r| == |items|
    ensures forall i :: 0 <= i < |r| ==> r[i].(quantity := items[i].quantity) == items[i]
    ensures forall i :: 0 <= i < |r| && items[i].id != id ==> r[i] == items[i]
    ensures forall i :: 0 <= i < |r| && items[i].id == id ==>
      r[i].quantity == Num(if qty < 1 then 1 else qty)
  {
    var clamped := if qty < 1 then 1 else qty;
    seq(|items|, i requires 0 <= i < |items| =>
      if items[i].id == id then items[i].(quantity := Num(clamped)) else items[i])
  }

  predicate DistinctIds(items: seq<Item>) {
    forall i, j :: 0 <= i < j < |items| ==> items[i].id != items[j].id
  }

  predicate QuantitiesAtLeastOne(items: seq<Item>) {
    forall i :: 0 <= i < |items| ==> items[i].quantity.Num? && items[i].quantity.n >= 1
  }

  /** A listed lunch gets one more: a number is incremented, a missing quantity counts as 1. */
  lemma AddExistingIncrements(items: seq<Item>, l: Lunch, i: int)
    requires 0 <= i < |items| && items[i].id == l.id
    ensures items[i].quantity.Num? ==> AddLunchToDraft(items, l)[i].quantity == Num(items[i].quantity.n + 1)
    ensures items[i].quantity.Missing? ==> AddLunchToDraft(items, l)[i].quantity == Num(2)
  {
  }

  /** Adding never creates a second item for the same lunch. */
  lemma AddKeepsIdsDistinct(items: seq<Item>, l: Lunch)
    requires DistinctIds(items)
    ensures DistinctIds(AddLunchToDraft(items, l))
  {
    var r := AddLunchToDraft(items, l);
    if !HasId(items, l.id) {
      forall i, j | 0 <= i < j < |r| ensures r[i].id != r[j].id {
        if j == |items| {
          assert r[i] == items[i];
        }
      }
    }
  }

  /** Adding the same lunch twice to a draft without it gives one item of quantity 2. */
  lemma AddTwiceMerges(items: seq<Item>, l: Lunch)
    requires !HasId(items, l.id)
    ensures AddLunchToDraft(AddLunchToDraft(items, l), l) == items + [NewItem(l).(quantity := Num(2))]
  {
    var once := AddLunchToDraft(items, l);
    assert once[|items|].id == l.id;
    var twice := AddLunchToDraft(once, l);
    assert |twice| == |items| + 1;
    forall i | 0 <= i < |twice| ensures twice[i] == (items + [NewItem(l).(quantity := Num(2))])[i] {
      if i < |items| {
        assert items[i].id != l.id;
      }
    }
  }

  /** Add, set-quantity and remove all keep every quantity a number of at least 1. */
  lemma EditsKeepQuantitiesAtLeastOne(items: seq<Item>, l: Lunch, id: string, qty: int)
    requires QuantitiesAtLeastOne(items)
    ensures QuantitiesAtLeastOne(AddLunchToDraft(items, l))
    ensures QuantitiesAtLeastOne(SetQuantityForLunch(items, id, qty))
    ensures QuantitiesAtLeastOne(RemoveLunchFromDraft(items, id))
  {
    var r := RemoveLunchFromDraft(items, id);
    forall i | 0 <= i < |r| ensures r[i].quantity.Num? && r[i].quantity.n >= 1 {
      var k :| 0 <= k < |items| && items[k] == r[i];
    }
  }

  /** Removal keeps the other items in order and with their multiplicity. */
  lemma RemoveKeepsTheRest(a: seq<Item>, b: seq<Item>, id: string, it: Item)
    ensures RemoveLunchFromDraft(a + b, id) == RemoveLunchFromDraft(a, id) + RemoveLunchFromDraft(b, id)
    ensures multiset(RemoveLunchFromDraft(a, id))[it] == if it.id != id then multiset(a)[it] else 0
  {
    Lists.FilterConcat(a, b, (it: Item) => it.id != id);
    Lists.FilterMultiplicity(a, (it: Item) => it.id != id, it);
  }

  /** `items.reduce((sum, it) => sum + ((it.price ?? 0) * (it.quantity ?? 0)), acc)` */
  function CalculatedFrom(acc: int, items: seq<Item>): (r: int)
    ensures r == acc + SumOfLines(items)
    decreases |items|
  {
    if items == [] then acc
    else CalculatedFrom(acc + NumberOrNullish(items[0].price, 0) * NumberOrNullish(items[0].quantity, 0), items[1..])
  }

  /** `totalCalculated`: with `?? 0` instead of `|| 0` it still equals `computeTotal`. */
  function TotalCalculated(items: seq<Item>): (r: int)
    ensures r == ComputeTotal(Some(items))
  {
    CalculatedFrom(0, items)
  }

  /** `{ ...it, quantity: typeof q === "number" ? q : Number(q ?? 1) }`, applied before submitting. */
  function SubmitItem(it: Item): (r: Item)
    ensures r.quantity.Num? && r.(quantity := it.quantity) == it
    ensures it.quantity.Num? ==> r == it
    ensures it.quantity.Missing? ==> r.quantity == Num(1)
  {
    it.(quantity := Num(NumberOrNullish(it.quantity, 1)))
  }

  function SubmitQuantities(items: seq<Item>): (r: seq<Item>)
    ensures |r| == |items|
    ensures forall i :: 0 <= i < |r| ==> r[i] == SubmitItem(items[i])
  {
    seq(|items|, i requires 0 <= i < |items| => SubmitItem(items[i]))
  }

  /**
   * The form's `?? 1` and the store's `|| 1` agree on every quantity except the
   * empty string, which the form turns into 0 and the store into 1.
   */
  lemma SubmitVersusNormalize(it: Item)
    ensures SubmitItem(it) == NormalizeItem(it) <==> it.quantity != Blank
    ensures it.quantity == Blank ==> SubmitItem(it).quantity == Num(0) && NormalizeItem(it).quantity == Num(1)
  {
  }

  /** A numeric quantity passes through the submit step unchanged. */
  lemma SubmitKeepsNumbers(items: seq<Item>)
    requires forall i :: 0 <= i < |items| ==> items[i].quantity.Num?
    ensures SubmitQuantities(items) == items
  {
  }

  /** An update is skipped when the draft carries no id, or an empty one. */
  predicate UpdateSkipped(d: Draft) {
    d.id.None? || d.id == Some("")
  }

  /**
   * `handleSubmit`: write the normalised quantities into the draft, then
   * update (when editing) or add, then flip the form's visibility.
   */
  method HandleSubmit(store: Store, response: Outcome<RawOrder>) returns (request: Option<RawOrder>)
    requires store.Valid()
    modifies store`draft, store`orders, store`isEditing, store`loading, store`error, store`showOrderForm
    ensures store.Valid()
    ensures store.showOrderForm == !old(store.showOrderForm)
    ensures var sent := old(store.draft).(lunch := SubmitQuantities(old(store.draft.lunch)));
      && (!old(store.isEditing) ==> request == Some(CreateRequest(sent)))
      && (old(store.isEditing) && !UpdateSkipped(sent) ==> request == Some(UpdateRequest(sent)))
      && (old(store.isEditing) && UpdateSkipped(sent) ==> request.None?)
      && (request.None? || response.Err? ==> store.orders == old(store.orders) && store.draft == sent)
      && (request.None? ==>
            store.isEditing == old(store.isEditing) && store.loading == old(store.loading) && store.error == old(store.error))
      && (request.Some? ==> !store.loading)
      && (request.Some? && response.Err? ==>
            && store.isEditing == old(store.isEditing)
            && store.error == Some(ErrorMessage(response.thrown, if old(store.isEditing) then UpdateFallback else CreateFallback)))
      && (request.Some? && response.Ok? ==>
            && store.draft == InitialDraft(store.loadedAt) && !store.isEditing && store.error.None?
            && store.orders == if old(store.isEditing)
                               then ReplaceOrder(old(store.orders), sent.id.value, NormalizeOrder(response.value))
                               else [NormalizeOrder(response.value)] + old(store.orders))
  {
    store.SetDraftLunch(SubmitQuantities(store.draft.lunch));
    if store.isEditing {
      request := store.UpdateOrderFromOrders(response);
    } else {
      var created := store.AddOrderFromDraft(response);
      request := Some(created);
    }
    store.ToggleOrderForm();
  }
}
