/**
 * src/store/useOrderStore.ts: normalisation of incoming orders, the filtered
 * view, and the order store itself. Each asynchronous action is one atomic
 * transition whose API call is replaced by its outcome, passed in.
 */
module OrderStore {
  import opened Wrappers
  import opened Dates
  import opened Types
  import opened Totals
  import Lists

  // ---------------------------------------------------------------- normalisation

  /** The `date` field of an incoming record. */
  datatype RawDate =
    | NoDate                             // undefined or null
    | EmptyText                          // ''
    | DateObject(valid: Option<Instant>) // a Date; None for an Invalid Date
    | DateText(parsed: Option<Instant>)  // a non-empty string and what `new Date(s)` makes of it
    | NotADate                           // a number, a boolean or another object

  /** `Partial<OrderType>`: an order as the API returns it, or as a request body carries it. */
  datatype RawOrder = RawOrder(
    id: Option<string>,
    towerNum: Option<string>,
    apto: Option<int>,
    customer: Option<string>,
    phoneNum: Option<int>,
    payMethod: Option<PayMethod>,
    lunch: Option<seq<Item>>,
    details: Option<string>,
    time: Option<string>,
    date: RawDate,
    orderState: Option<OrderState>,
    total: Loose)

  const EmptyPayMethod := PayMethod("", "", "")

  /** The date `normalizeOrder` keeps: a valid Date or a parseable string, and nothing else. */
  function NormalizeDate(raw: RawDate): (r: Option<Instant>)
    ensures r.Some? <==> (raw.DateObject? && raw.valid.Some?) || (raw.DateText? && raw.parsed.Some?)
    ensures raw.DateObject? ==> r == raw.valid
    ensures raw.DateText? ==> r == raw.parsed
  {
    match raw
    case DateObject(valid) => valid
    case DateText(parsed) => parsed
    case _ => None
  }

  /** `{ ...it, quantity: typeof q === 'number' ? q : Number(q || 1) }` */
  function NormalizeItem(it: Item): (r: Item)
    ensures r.quantity.Num? && r.(quantity := it.quantity) == it
    ensures it.quantity.Num? ==> r == it
    ensures Falsy(it.quantity) && !it.quantity.Num? ==> r.quantity == Num(1)
  {
    it.(quantity := Num(NumberOr(it.quantity, 1)))
  }

  function NormalizeItems(items: seq<Item>): (r: seq<Item>)
    ensures |r| == |items|
    ensures forall i :: 0 <= i < |r| ==> r[i] == NormalizeItem(items[i])
  {
    seq(|items|, i requires 0 <= i < |items| => NormalizeItem(items[i]))
  }

  /** An order in canonical shape: every quantity is a number. */
  predicate Normalized(o: Order) {
    forall i :: 0 <= i < |o.lunch| ==> o.lunch[i].quantity.Num?
  }

  /** `normalizeOrder`: every field filled in, quantities made numbers, the total kept or recomputed. */
  function NormalizeOrder(o: RawOrder): (r: Order)
    ensures Normalized(r)
    ensures |r.lunch| == |o.lunch.GetOr([])|
    ensures forall i :: 0 <= i < |r.lunch| ==>
      var it := o.lunch.GetOr([])[i];
      && r.lunch[i].(quantity := it.quantity) == it
      && (it.quantity.Num? ==> r.lunch[i].quantity == it.quantity)
      && (it.quantity.Numeral? ==> r.lunch[i].quantity == Num(it.quantity.n))
      && (Falsy(it.quantity) && !it.quantity.Num? ==> r.lunch[i].quantity == Num(1))
    ensures o.total.Num? ==> r.total == o.total.n
    ensures !o.total.Num? ==> r.total == SumOfLines(r.lunch)
    ensures r.date == NormalizeDate(o.date)
    ensures r.id == o.id.GetOr("") && r.towerNum == o.towerNum.GetOr("") && r.apto == o.apto.GetOr(0)
    ensures r.customer == o.customer.GetOr("") && r.phoneNum == o.phoneNum.GetOr(0)
    ensures r.payMethod == o.payMethod.GetOr(EmptyPayMethod)
    ensures r.details == o.details.GetOr("") && r.time == o.time.GetOr("")
    ensures r.orderState == o.orderState.GetOr(Pending)
  {
    var items := NormalizeItems(o.lunch.GetOr([]));
    Order(
      o.id.GetOr(""),
      o.towerNum.GetOr(""),
      o.apto.GetOr(0),
      o.customer.GetOr(""),
      o.phoneNum.GetOr(0),
      o.payMethod.GetOr(EmptyPayMethod),
      items,
      o.details.GetOr(""),
      o.time.GetOr(""),
      NormalizeDate(o.date),
      o.orderState.GetOr(Pending),
      if o.total.Num? then o.total.n else ComputeTotal(Some(items)))
  }

  /** The canonical date seen again as a raw field. */
  function RawDateOf(d: Option<Instant>): RawDate {
    if d.Some? then DateObject(d) else NoDate
  }

  /** A canonical order seen again as a loosely typed record. */
  function ToRaw(o: Order): RawOrder {
    RawOrder(Some(o.id), Some(o.towerNum), Some(o.apto), Some(o.customer), Some(o.phoneNum),
             Some(o.payMethod), Some(o.lunch), Some(o.details), Some(o.time), RawDateOf(o.date),
             Some(o.orderState), Num(o.total))
  }

  /** The orders `normalizeOrder` leaves unchanged are exactly the canonical ones. */
  lemma NormalizeFixpoints(o: Order)
    ensures NormalizeOrder(ToRaw(o)) == o <==> Normalized(o)
  {
    var r := NormalizeOrder(ToRaw(o));
    if Normalized(o) {
      assert r.lunch == o.lunch;
    } else {
      var i :| 0 <= i < |o.lunch| && !o.lunch[i].quantity.Num?;
      assert r.lunch[i] != o.lunch[i];
    }
  }

  /** Normalising twice is normalising once. */
  lemma NormalizeIdempotent(raw: RawOrder)
    ensures NormalizeOrder(ToRaw(NormalizeOrder(raw))) == NormalizeOrder(raw)
  {
    NormalizeFixpoints(NormalizeOrder(raw));
  }

  /** Defaults of an empty record: '' and 0 for scalars, an empty pay method, 'pendiente', total 0. */
  lemma EmptyRecordDefaults()
    ensures NormalizeOrder(RawOrder(None, None, None, None, None, None, None, None, None, NoDate, None, Missing))
         == Order("", "", 0, "", 0, EmptyPayMethod, [], "", "", None, Pending, 0)
  {
  }

  /** Textual price "1000" and quantity "2" give the total 2000; an unparseable date is dropped. */
  lemma TextualFieldsExample(raw: RawOrder, it: Item)
    requires it.price == Numeral(1000) && it.quantity == Numeral(2)
    requires raw.lunch == Some([it]) && raw.total == Missing && raw.date == DateText(None)
    ensures NormalizeOrder(raw).total == 2000
    ensures NormalizeOrder(raw).date == None
  {
    var items := NormalizeOrder(raw).lunch;
    assert items[1..] == [];
  }

  // ---------------------------------------------------------------- filtering

  /** `statusFilter`: 'all' or one order state. */
  datatype StatusFilter = AnyStatus | OnlyStatus(state: OrderState)

  /** `dateFilterType`: 'all' | 'today' | 'week' | 'month' | 'date'. */
  datatype DateFilter = AnyDate | Today | ThisWeek | ThisMonth | OnDate

  predicate MatchesStatus(filter: StatusFilter, o: Order): (r: bool)
    ensures r <==> filter == AnyStatus || filter == OnlyStatus(o.orderState)
  {
    filter.AnyStatus? || o.orderState == filter.state
  }

  /** `matchesDate`; `now` is the `new Date()` taken when the view is read. */
  predicate MatchesDate(o: Order, kind: DateFilter, on: Option<Instant>, now: Instant): (r: bool)
    ensures kind.AnyDate? || (kind.OnDate? && on.None?) ==> r
    ensures o.date.None? ==> (r <==> kind.AnyDate? || (kind.OnDate? && on.None?))
    ensures r && kind.Today? ==> o.date == Some(Instant(now.day, o.date.value.ms))
  {
    match kind
    case AnyDate => true
    case Today => IsSameDay(o.date, Some(now))
    case ThisWeek => IsSameWeek(o.date, Some(now))
    case ThisMonth => IsSameMonth(o.date, Some(now))
    case OnDate => on.None? || IsSameDay(o.date, on)
  }

  /** `filteredOrders`: the orders passing both the status and the date test, in list order. */
  function FilterOrders(orders: seq<Order>, status: StatusFilter, kind: DateFilter, on: Option<Instant>, now: Instant): (r: seq<Order>)
    ensures forall i :: 0 <= i < |r| ==>
      r[i] in orders && MatchesStatus(status, r[i]) && MatchesDate(r[i], kind, on, now)
    ensures forall i :: 0 <= i < |orders| && MatchesStatus(status, orders[i]) && MatchesDate(orders[i], kind, on, now) ==>
      orders[i] in r
  {
    Lists.Filter(orders, o => MatchesStatus(status, o) && MatchesDate(o, kind, on, now))
  }

  /** The filtered view keeps relative order: it distributes over concatenation. */
  lemma FilterOrdersConcat(a: seq<Order>, b: seq<Order>, status: StatusFilter, kind: DateFilter, on: Option<Instant>, now: Instant)
    ensures FilterOrders(a + b, status, kind, on, now) == FilterOrders(a, status, kind, on, now) + FilterOrders(b, status, kind, on, now)
  {
    Lists.FilterConcat(a, b, o => MatchesStatus(status, o) && MatchesDate(o, kind, on, now));
  }

  /** A kept order appears as often as in the list; a rejected one not at all. */
  lemma FilterOrdersMultiplicity(orders: seq<Order>, status: StatusFilter, kind: DateFilter, on: Option<Instant>, now: Instant, o: Order)
    ensures multiset(FilterOrders(orders, status, kind, on, now))[o]
         == if MatchesStatus(status, o) && MatchesDate(o, kind, on, now) then multiset(orders)[o] else 0
  {
    Lists.FilterMultiplicity(orders, o => MatchesStatus(status, o) && MatchesDate(o, kind, on, now), o);
  }

  /** With 'all' and 'all' the view is the whole list. */
  lemma FilterAllAll(orders: seq<Order>, on: Option<Instant>, now: Instant)
    ensures FilterOrders(orders, AnyStatus, AnyDate, on, now) == orders
  {
    Lists.FilterKeepsAll(orders, o => MatchesStatus(AnyStatus, o) && MatchesDate(o, AnyDate, on, now));
  }

  /** 'date' without a chosen date filters on status alone. */
  lemma OnDateWithoutDate(orders: seq<Order>, status: StatusFilter, now: Instant)
    ensures FilterOrders(orders, status, OnDate, None, now) == FilterOrders(orders, status, AnyDate, None, now)
  {
    var f := o => MatchesStatus(status, o) && MatchesDate(o, OnDate, None, now);
    var g := o => MatchesStatus(status, o) && MatchesDate(o, AnyDate, None, now);
    Lists.FilterAgreeing(orders, f, g);
  }

  // ---------------------------------------------------------------- the draft and the requests

  /** The form's draft: an order whose id is present only while an existing order is edited. */
  datatype Draft = Draft(
    id: Option<string>,
    towerNum: string,
    apto: int,
    customer: string,
    phoneNum: int,
    payMethod: PayMethod,
    lunch: seq<Item>,
    details: string,
    time: string,
    date: Option<Instant>,
    orderState: OrderState,
    total: Option<int>)

  /** `initialDraft`; its date is the `new Date()` taken once, when the module is loaded. */
  function InitialDraft(loadedAt: Instant): (d: Draft)
    ensures d.id.None? && d.lunch == [] && d.date == Some(loadedAt) && d.orderState == Pending && d.total.None?
    ensures d.towerNum == "" && d.apto == 0 && d.customer == "" && d.phoneNum == 0
    ensures d.payMethod == EmptyPayMethod && d.details == "" && d.time == ""
    ensures CreateRequest(d).total == Num(0)
  {
    Draft(None, "", 0, "", 0, EmptyPayMethod, [], "", "", Some(loadedAt), Pending, None)
  }

  /** `{ ...order }` */
  function DraftOf(o: Order): (d: Draft)
    ensures d.id == Some(o.id) && d.total == Some(o.total)
    ensures UpdateRequest(d) == ToRaw(o).(id := None, total := Missing)
  {
    Draft(Some(o.id), o.towerNum, o.apto, o.customer, o.phoneNum, o.payMethod, o.lunch,
          o.details, o.time, o.date, o.orderState, Some(o.total))
  }

  /** The body `addOrderFromDraft` sends: the draft's fields without id, with the computed total. */
  function CreateRequest(d: Draft): (r: RawOrder)
    ensures r.id.None? && r.lunch == Some(d.lunch)
    ensures r.total == Num(ComputeTotal(Some(d.lunch)))
    ensures var n := NormalizeOrder(r);
      && n.towerNum == d.towerNum && n.apto == d.apto && n.customer == d.customer
      && n.phoneNum == d.phoneNum && n.payMethod == d.payMethod && n.details == d.details
      && n.time == d.time && n.date == d.date && n.orderState == d.orderState
      && n.total == ComputeTotal(Some(d.lunch))
  {
    RawOrder(None, Some(d.towerNum), Some(d.apto), Some(d.customer), Some(d.phoneNum), Some(d.payMethod),
             Some(d.lunch), Some(d.details), Some(d.time), RawDateOf(d.date), Some(d.orderState),
             Num(ComputeTotal(Some(d.lunch))))
  }

  /** The body `updateOrderFromOrders` sends: the same fields, but neither id nor total. */
  function UpdateRequest(d: Draft): (r: RawOrder)
    ensures r.total.Missing? && r.(total := Num(ComputeTotal(Some(d.lunch)))) == CreateRequest(d)
  {
    RawOrder(None, Some(d.towerNum), Some(d.apto), Some(d.customer), Some(d.phoneNum), Some(d.payMethod),
             Some(d.lunch), Some(d.details), Some(d.time), RawDateOf(d.date), Some(d.orderState), Missing)
  }

  /** The body `updateOrderStateById` sends: the state alone. */
  function StateRequest(s: OrderState): (r: RawOrder)
    ensures r.orderState == Some(s)
    ensures r.(orderState := None) == RawOrder(None, None, None, None, None, None, None, None, None, NoDate, None, Missing)
  {
    RawOrder(None, None, None, None, None, None, None, None, None, NoDate, Some(s), Missing)
  }

  /** `orders.map(o => o.id === id ? updated : o)` */
  function ReplaceOrder(orders: seq<Order>, id: string, updated: Order): (r: seq<Order>)
    ensures |r| == |orders|
    ensures forall i :: 0 <= i < |r| ==> r[i] == if orders[i].id == id then updated else orders[i]
  {
    seq(|orders|, i requires 0 <= i < |orders| => if orders[i].id == id then updated else orders[i])
  }

  /** `orders.filter(o => o.id !== id)` */
  function WithoutOrder(orders: seq<Order>, id: string): (r: seq<Order>)
    ensures forall i :: 0 <= i < |r| ==> r[i].id != id && r[i] in orders
    ensures forall i :: 0 <= i < |orders| && orders[i].id != id ==> orders[i] in r
  {
    Lists.Filter(orders, (o: Order) => o.id != id)
  }

  /** Removal keeps the other orders in their order and with their multiplicity. */
  lemma WithoutOrderKeepsTheRest(a: seq<Order>, b: seq<Order>, id: string, o: Order)
    ensures WithoutOrder(a + b, id) == WithoutOrder(a, id) + WithoutOrder(b, id)
    ensures multiset(WithoutOrder(a, id))[o] == if o.id != id then multiset(a)[o] else 0
  {
    Lists.FilterConcat(a, b, (o: Order) => o.id != id);
    Lists.FilterMultiplicity(a, (o: Order) => o.id != id, o);
  }

  function NormalizeAll(raws: seq<RawOrder>): (r: seq<Order>)
    ensures |r| == |raws|
    ensures forall i :: 0 <= i < |r| ==> r[i] == NormalizeOrder(raws[i])
  {
    seq(|raws|, i requires 0 <= i < |raws| => NormalizeOrder(raws[i]))
  }

  predicate AllNormalized(orders: seq<Order>) {
    forall i :: 0 <= i < |orders| ==> Normalized(orders[i])
  }

  // ---------------------------------------------------------------- the store

  const LoadFallback := "Error al cargar Pedidos"
  const CreateFallback := "Error al crear un pedido"
  const UpdateFallback := "Error al actualizar pedido"
  const DeleteFallback := "Error al eliminar pedido"
  const StateFallback := "Error al actualizar estado del pedido"

  class Store {
    var orders: seq<Order>
    var showOrderForm: bool
    var isEditing: bool
    var loading: bool
    var error: Option<string>
    var draft: Draft
    var statusFilter: StatusFilter
    var dateFilterType: DateFilter
    var dateFilterDate: Option<Instant>
    /** When the module was loaded: the date of `initialDraft`. */
    const loadedAt: Instant

    /** Every order the store holds came through `normalizeOrder`. */
    ghost predicate Valid()
      reads this`orders
    {
      AllNormalized(orders)
    }

    constructor (loadedAt: Instant)
      ensures Valid()
      ensures this.loadedAt == loadedAt && orders == [] && draft == InitialDraft(loadedAt)
      ensures !showOrderForm && !isEditing && !loading && error.None?
      ensures statusFilter == AnyStatus && dateFilterType == AnyDate && dateFilterDate.None?
    {
      this.loadedAt := loadedAt;
      orders, showOrderForm, isEditing, loading, error := [], false, false, false, None;
      draft := InitialDraft(loadedAt);
      statusFilter, dateFilterType, dateFilterDate := AnyStatus, AnyDate, None;
    }

    method SetDraftTowerNum(towerNum: string)
      modifies this`draft
      ensures draft == old(draft).(towerNum := towerNum)
    {
      draft := draft.(towerNum := towerNum);
    }

    method SetDraftApto(apto: int)
      modifies this`draft
      ensures draft == old(draft).(apto := apto)
    {
      draft := draft.(apto := apto);
    }

    method SetDraftCustomer(customer: string)
      modifies this`draft
      ensures draft == old(draft).(customer := customer)
    {
      draft := draft.(customer := customer);
    }

    method SetDraftPhoneNum(phoneNum: int)
      modifies this`draft
      ensures draft == old(draft).(phoneNum := phoneNum)
    {
      draft := draft.(phoneNum := phoneNum);
    }

    method SetDraftPayMethod(payMethod: PayMethod)
      modifies this`draft
      ensures draft == old(draft).(payMethod := payMethod)
    {
      draft := draft.(payMethod := payMethod);
    }

    method SetDraftLunch(lunch: seq<Item>)
      modifies this`draft
      ensures draft == old(draft).(lunch := lunch)
    {
      draft := draft.(lunch := lunch);
    }

    method SetDraftDetails(details: string)
      modifies this`draft
      ensures draft == old(draft).(details := details)
    {
      draft := draft.(details := details);
    }

    method SetDraftTime(time: string)
      modifies this`draft
      ensures draft == old(draft).(time := time)
    {
      draft := draft.(time := time);
    }

    method SetDraftDate(date: Option<Instant>)
      modifies this`draft
      ensures draft == old(draft).(date := date)
    {
      draft := draft.(date := date);
    }

    method SetDraftOrderState(orderState: OrderState)
      modifies this`draft
      ensures draft == old(draft).(orderState := orderState)
    {
      draft := draft.(orderState := orderState);
    }

    method ResetDraft()
      modifies this`draft, this`isEditing
      ensures draft == InitialDraft(loadedAt) && !isEditing
    {
      draft, isEditing := InitialDraft(loadedAt), false;
    }

    /** Flips the form's visibility; doing it twice restores it. */
    method ToggleOrderForm()
      modifies this`showOrderForm
      ensures showOrderForm == !old(showOrderForm)
    {
      showOrderForm := !showOrderForm;
    }

    method SetStatusFilter(s: StatusFilter)
      modifies this`statusFilter
      ensures statusFilter == s
    {
      statusFilter := s;
    }

    method SetDateFilterType(t: DateFilter)
      modifies this`dateFilterType
      ensures dateFilterType == t
    {
      dateFilterType := t;
    }

    method SetDateFilterDate(d: Option<Instant>)
      modifies this`dateFilterDate
      ensures dateFilterDate == d
    {
      dateFilterDate := d;
    }

    method ClearFilters()
      modifies this`statusFilter, this`dateFilterType, this`dateFilterDate
      ensures statusFilter == AnyStatus && dateFilterType == AnyDate && dateFilterDate.None?
    {
      statusFilter, dateFilterType, dateFilterDate := AnyStatus, AnyDate, None;
    }

    /** The derived view, recomputed on every read; `now` is the current time. */
    function FilteredOrders(now: Instant): (r: seq<Order>)
      reads this
      ensures r == FilterOrders(orders, statusFilter, dateFilterType, dateFilterDate, now)
      ensures statusFilter.AnyStatus? && dateFilterType.AnyDate? ==> r == orders
    {
      FilterAllAll(orders, dateFilterDate, now);
      FilterOrders(orders, statusFilter, dateFilterType, dateFilterDate, now)
    }

    method LoadOrderToDraft(order: Order)
      modifies this`draft, this`isEditing
      ensures draft == DraftOf(order) && isEditing
    {
      draft, isEditing := DraftOf(order), true;
    }

    method SetEditingMode(editing: bool)
      modifies this`isEditing
      ensures isEditing == editing
    {
      isEditing := editing;
    }

    method SetError(e: Option<string>)
      modifies this`error
      ensures error == e
    {
      error := e;
    }

    /** `loadOrders`: on success the list is replaced by the normalised response. */
    method LoadOrders(response: Outcome<seq<RawOrder>>)
      requires Valid()
      modifies this`orders, this`loading, this`error
      ensures Valid() && !loading
      ensures response.Ok? ==> orders == NormalizeAll(response.value) && error.None?
      ensures response.Err? ==> orders == old(orders) && error == Some(ErrorMessage(response.thrown, LoadFallback))
    {
      loading, error := true, None;
      match response
      case Ok(raws) =>
        orders, loading := NormalizeAll(raws), false;
      case Err(thrown) =>
        error, loading := Some(ErrorMessage(thrown, LoadFallback)), false;
    }

    /** `addOrderFromDraft`: sends the draft with its computed total; on success prepends the saved order. */
    method AddOrderFromDraft(response: Outcome<RawOrder>) returns (request: RawOrder)
      requires Valid()
      modifies this`orders, this`draft, this`isEditing, this`loading, this`error
      ensures Valid() && !loading
      ensures request == CreateRequest(old(draft))
      ensures response.Ok? ==>
        && orders == [NormalizeOrder(response.value)] + old(orders)
        && draft == InitialDraft(loadedAt) && !isEditing && error.None?
      ensures response.Err? ==>
        && orders == old(orders) && draft == old(draft) && isEditing == old(isEditing)
        && error == Some(ErrorMessage(response.thrown, CreateFallback))
    {
      loading, error := true, None;
      request := CreateRequest(draft);
      match response
      case Ok(raw) =>
        var saved := NormalizeOrder(raw);
        orders, draft, isEditing, loading := [saved] + orders, InitialDraft(loadedAt), false, false;
      case Err(thrown) =>
        error, loading := Some(ErrorMessage(thrown, CreateFallback)), false;
    }

    /**
     * `updateOrderFromOrders`: nothing at all happens without a (non-empty)
     * draft id; otherwise every order with that id is replaced by the saved one.
     */
    method UpdateOrderFromOrders(response: Outcome<RawOrder>) returns (request: Option<RawOrder>)
      requires Valid()
      modifies this`orders, this`draft, this`isEditing, this`loading, this`error
      ensures Valid()
      ensures old(draft.id).None? || old(draft.id) == Some("") ==>
        && request.None? && orders == old(orders) && draft == old(draft)
        && isEditing == old(isEditing) && loading == old(loading) && error == old(error)
      ensures old(draft.id).Some? && old(draft.id) != Some("") ==>
        && request == Some(UpdateRequest(old(draft))) && !loading
        && (response.Ok? ==>
              && orders == ReplaceOrder(old(orders), old(draft.id.value), NormalizeOrder(response.value))
              && draft == InitialDraft(loadedAt) && !isEditing && error.None?)
        && (response.Err? ==>
              && orders == old(orders) && draft == old(draft) && isEditing == old(isEditing)
              && error == Some(ErrorMessage(response.thrown, UpdateFallback)))
    {
      if draft.id.None? || draft.id.value == "" {
        return None;
      }
      var id := draft.id.value;
      loading, error := true, None;
      request := Some(UpdateRequest(draft));
      match response
      case Ok(raw) =>
        var updated := NormalizeOrder(raw);
        orders := ReplaceOrder(orders, id, updated);
        draft, isEditing, loading := InitialDraft(loadedAt), false, false;
      case Err(thrown) =>
        error, loading := Some(ErrorMessage(thrown, UpdateFallback)), false;
    }

    /** `deleteOrderById`: on success every order with that id is dropped. */
    method DeleteOrderById(id: string, response: Outcome<()>)
      requires Valid()
      modifies this`orders, this`loading, this`error
      ensures Valid() && !loading
      ensures response.Ok? ==> orders == WithoutOrder(old(orders), id) && error.None?
      ensures response.Err? ==> orders == old(orders) && error == Some(ErrorMessage(response.thrown, DeleteFallback))
    {
      loading, error := true, None;
      match response
      case Ok(_) =>
        orders, loading := WithoutOrder(orders, id), false;
      case Err(thrown) =>
        error, loading := Some(ErrorMessage(thrown, DeleteFallback)), false;
    }

    /** `updateOrderStateById`: always calls the API, then replaces every order with that id. */
    method UpdateOrderStateById(id: string, newState: OrderState, response: Outcome<RawOrder>) returns (request: RawOrder)
      requires Valid()
      modifies this`orders, this`loading, this`error
      ensures Valid() && !loading
      ensures request == StateRequest(newState)
      ensures response.Ok? ==> orders == ReplaceOrder(old(orders), id, NormalizeOrder(response.value)) && error.None?
      ensures response.Err? ==> orders == old(orders) && error == Some(ErrorMessage(response.thrown, StateFallback))
    {
      loading, error := true, None;
      request := StateRequest(newState);
      match response
      case Ok(raw) =>
        orders, loading := ReplaceOrder(orders, id, NormalizeOrder(raw)), false;
      case Err(thrown) =>
        error, loading := Some(ErrorMessage(thrown, StateFallback)), false;
    }
  }
}
