/** The entities of src/types/index.ts. */
module Types {
  import opened Wrappers
  import opened Dates

  /**
   * A slot that the program reads as a number but that is untyped at run time
   * (line items and totals arrive as `any`): absent, a number, a non-empty
   * string holding the decimal numeral of `n` (such as "1000"), or the empty
   * string. Strings that do not spell a number (whose `Number` is NaN) are not
   * modelled.
   */
  datatype Loose = Missing | Num(n: int) | Numeral(n: int) | Blank

  /** JavaScript truthiness of the slot: `undefined`, `""` and `0` are falsy; every non-empty string is truthy. */
  predicate Falsy(v: Loose) {
    v.Missing? || v.Blank? || v == Num(0)
  }

  /** `typeof v === 'number' ? v : Number(v || fallback)` */
  function NumberOr(v: Loose, fallback: int): (r: int)
    ensures !Falsy(v) ==> r == v.n
    ensures Falsy(v) ==> r == if v.Num? then 0 else fallback
  {
    match v
    case Num(n) => n
    case Numeral(n) => n
    case Missing => fallback
    case Blank => fallback
  }

  /**
   * `typeof v === 'number' ? v : Number(v ?? fallback)`. It differs from
   * `NumberOr` only on the empty string, which `??` keeps and `Number` turns
   * into 0; with a fallback of 0 the two always agree.
   */
  function NumberOrNullish(v: Loose, fallback: int): (r: int)
    ensures v != Blank ==> r == NumberOr(v, fallback)
    ensures fallback == 0 ==> r == NumberOr(v, 0)
    ensures v == Blank ==> r == 0
  {
    match v
    case Num(n) => n
    case Numeral(n) => n
    case Missing => fallback
    case Blank => 0
  }

  /** LunchType: a catalogue entry. */
  datatype Lunch = Lunch(id: string, title: string, imagen: string, price: int, tags: seq<string>)

  /** OrderItem: a copy of a lunch plus a quantity; price and quantity are untyped at run time. */
  datatype Item = Item(id: string, title: string, imagen: string, price: Loose, tags: seq<string>, quantity: Loose)

  /** PayMethod; `label` is a Dafny keyword, so the field is `caption`. */
  datatype PayMethod = PayMethod(id: string, caption: string, image: string)

  /** OrderState: 'pendiente' | 'pagado'. */
  datatype OrderState = Pending | Paid

  /** OrderType as the stores hold it: every optional field filled in by normalisation. */
  datatype Order = Order(
    id: string,
    towerNum: string,
    apto: int,
    customer: string,
    phoneNum: int,
    payMethod: PayMethod,
    lunch: seq<Item>,
    details: string,
    time: string,
    date: Option<Instant>,
    orderState: OrderState,
    total: int)
}
