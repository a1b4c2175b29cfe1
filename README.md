# Order, lunch and expense bookkeeping — a Dafny model

This project models the client-side bookkeeping of a small restaurant
front end: the order store (its draft, list, filters and API transitions),
the normalisation that turns a loosely typed order from the back end into a
canonical one, the order-total fold, the calendar predicates behind the
date filters, the line-item helpers and submit sequence of the order form,
the lunch store, the expense store, and two preview derivations (order
totals and tag removal).

Modules, one per source file or concern:

- `Wrappers`: `Option`, the thrown value of a failed call (`Thrown`), and
  `Outcome`, the abstract result of an API call (`Ok(value)` or `Err(thrown)`).
  `ErrorMessage` is `err instanceof Error ? err.message : fallback`.
- `Lists`: a stable `Filter` over sequences with its order, multiplicity and
  idempotence lemmas; every `.filter` of the source is an instance of it.
- `Civil`: the proleptic Gregorian calendar computed from a day number
  (day 0 is Thursday 1 January 1970), with the proof that distinct day
  numbers give distinct calendar dates.
- `Dates` (`src/utils/date.ts`): a moment is a day number plus milliseconds
  within the day. `startOfWeek`/`endOfWeek` are specified as functions and
  also written as methods over a mutable `Date` class with `SetHours` and
  `SetDate`, as the source builds them. The three `isSame*` predicates take
  an `Option`, with `None` for absent or invalid dates.
- `Types` (`src/types/index.ts`): lunches, line items, pay methods, orders.
  A numeric field that arrives untyped (item price and quantity, the raw
  total) is a `Loose` value. It is one of: absent (`Missing`), a number
  (`Num`), a non-empty string holding a decimal numeral (`Numeral`), or the
  empty string (`Blank`). `NumberOr` is the `typeof v === 'number' ? v :
  Number(v || d)` coercion and `NumberOrNullish` the `?? d` variant. They
  differ only on the empty string.
- `Totals` (`src/utils/computeTotal.ts`): the fold and its reference sum.
- `OrderStore` (`src/store/useOrderStore.ts`): `normalizeOrder`, the
  filters, and a `Store` class whose methods are the store's actions. Each
  asynchronous action is one atomic transition that takes the API outcome
  as a parameter. The create and update actions return the body they would
  send. The update bodies carry no id, because the source passes the target
  id to the API separately. `LoadOrders` and `DeleteOrderById` return nothing.
- `OrderForm` (`src/components/forms/OrderForm.tsx`): add, remove and set
  the quantity of draft items; the locally computed total; `handleSubmit`.
- `LunchStore` (`src/store/useLunchStore.ts`) and `ExpenseStore`
  (`src/store/useExpenseStore.ts`): classes over their lists and drafts.
- `ViewOrder` (`src/components/custom/ViewOrder.tsx`): the preview totals.
- `ViewForm` (`src/components/custom/ViewForm.tsx`): `removeTag`.

The lunch store has no API calls, no editing mode and no duplicate-free tag
adding. `updateOrderStateById` calls the API even when the state is
unchanged. `updateOrderFromOrders` sends no `total`.

## Model

| member | source | states |
|---|---|---|
| Civil.YearWalk | src/utils/date.ts:21 | walking whole years from a year keeps the day count and ends inside a year |
| Civil.MonthWalk | src/utils/date.ts:21 | walking whole months keeps the day count and ends at a month 0..11; when the days fit in the year, the remainder fits in the month reached |
| Civil.FromDays | src/utils/date.ts:21 | the calendar date of a day number: a month 0..11, a day of month between 1 and that month's length, and the day number is recovered from year, month and day of month |
| Civil.DaysBeforeYearClosedForm | src/utils/date.ts:21 | the days before a year follow the Gregorian leap rule (every 4th year, not every 100th, every 400th) |
| Civil.DaysBeforeYearMonotone | src/utils/date.ts:21 | later years start later |
| Civil.YearInCycleBound | src/utils/date.ts:21 | a day inside a 400-year cycle falls in one of its 400 years |
| Civil.FromDaysInjective | src/utils/date.ts:21 | two days with the same year, month and day of month are the same day |
| Civil.CycleStartExample | src/utils/date.ts:21 | day 10957 is 1 January 2000 |
| Civil.LeapFebruaryExample | src/utils/date.ts:21 | 2000 is a leap year: day 11016 is 29 February, day 11017 is 1 March |
| Dates.StartOfWeek | src/utils/date.ts:1-7 | the start of the week is at midnight, on a Monday, 0 to 6 days before the given day |
| Dates.EndOfWeek | src/utils/date.ts:9-15 | the end of the week is 6 days after its start, at 23:59:59.999, on a Sunday, and not before the given moment |
| Dates.IsSameDay | src/utils/date.ts:17-22 | a match needs both dates present and on the same day number |
| Dates.IsSameWeek | src/utils/date.ts:24-30 | a match needs both dates present, with a's day at most 6 days after the Monday that starts b's week |
| Dates.IsSameMonth | src/utils/date.ts:32-36 | a match needs both dates present, and the day numbers then differ exactly by the difference of their days of month |
| Dates.AbsentNeverMatches | src/utils/date.ts:18 | all three comparisons are false when either date is absent |
| Dates.SameDayIsSameDayNumber | src/utils/date.ts:17-22 | equal year, month and day of month holds exactly when the two moments share a day number |
| Dates.SameWeekIsSameMonday | src/utils/date.ts:24-30 | a lies in b's week window exactly when both weeks start on the same Monday |
| Dates.SameWeekSymmetric | src/utils/date.ts:24-30 | the week comparison does not depend on argument order |
| Dates.SameDayImpliesSameWeekAndMonth | src/utils/date.ts:17-36 | the same day implies the same week and the same month |
| Dates.Date.constructor | src/utils/date.ts:2 | a copy of a date holds the same moment |
| Dates.Date.SetHours | src/utils/date.ts:4 | the moment becomes the given clock time on the same day |
| Dates.Date.SetDate | src/utils/date.ts:5 | the day moves by the difference in day of month and the time of day is kept |
| Dates.NewStartOfWeek | src/utils/date.ts:1-7 | building a fresh date with `setHours` then `setDate` yields exactly the start of the week |
| Dates.NewEndOfWeek | src/utils/date.ts:9-15 | building a fresh date with `setDate` then `setHours` yields exactly the end of the week |
| Types.NumberOr | src/utils/computeTotal.ts:4-5 | a truthy value gives its number; a falsy one gives the default, except a numeric 0 which stays 0 |
| Types.NumberOrNullish | src/components/custom/ViewOrder.tsx:44-45 | the nullish default (`?? d`) and the falsy default coerce alike except on the empty string, which the nullish form turns into 0 whatever the default, and alike everywhere when the default is 0 |
| Totals.LineAmount | src/utils/computeTotal.ts:4-6 | with a truthy price and quantity, a line is worth their product |
| Totals.Reduce | src/utils/computeTotal.ts:3-7 | the left fold from an accumulator adds the reference sum of the line amounts to it |
| Totals.ComputeTotal | src/utils/computeTotal.ts:1-8 | an absent list gives 0, otherwise the sum of price times quantity in list order |
| Totals.FalsyFieldAddsNothing | src/utils/computeTotal.ts:4-5 | a missing, zero or empty price or quantity contributes 0 |
| Totals.TotalOfConcat | src/utils/computeTotal.ts:3-7 | the total of a concatenation is the sum of the totals of the parts |
| Totals.TotalOfAppend | src/utils/computeTotal.ts:3-7 | appending an item adds exactly its line amount |
| Totals.TotalNonNegative | src/utils/computeTotal.ts:3-7 | non-negative prices and quantities give a non-negative total |
| Totals.TwoLinesExample | src/utils/computeTotal.ts:1-8 | two of 1000 plus one of 500 totals 2500 |
| OrderStore.NormalizeDate | src/store/useOrderStore.ts:10-18 | a date survives exactly when it is a valid Date or a parseable string; absent, null, empty, invalid and other values become absent |
| OrderStore.NormalizeItem | src/store/useOrderStore.ts:20-23 | only the quantity changes; it becomes a number, a numeric one is kept, a falsy one becomes 1 |
| OrderStore.NormalizeItems | src/store/useOrderStore.ts:19-23 | one normalised item per raw item, in order |
| OrderStore.NormalizeOrder | src/store/useOrderStore.ts:8-39 | the result is normalised, keeps the items' number and order, keeps numeric quantities, turns others into their number, 1 when falsy, keeps a numeric total or else recomputes it, normalises the date, and keeps every other field when present or fills its default ('', 0, the empty pay method, pending) |
| OrderStore.NormalizeFixpoints | src/store/useOrderStore.ts:8-39 | an order passes through normalisation unchanged exactly when all its quantities are numbers |
| OrderStore.NormalizeIdempotent | src/store/useOrderStore.ts:8-39 | normalising twice equals normalising once |
| OrderStore.EmptyRecordDefaults | src/store/useOrderStore.ts:25-38 | an empty record gets the defaults: empty strings, zeros, the empty pay method, no items, pending, total 0 |
| OrderStore.TextualFieldsExample | src/store/useOrderStore.ts:14-24 | textual price "1000" and quantity "2" total 2000; an unparseable date string becomes absent |
| OrderStore.MatchesStatus | src/store/useOrderStore.ts:187-190 | an order passes when the filter is 'all' or names its state |
| OrderStore.MatchesDate | src/store/useOrderStore.ts:171-186 | 'all', and 'date' without a chosen date, pass every order; an order without a date passes only those; 'today' passes only orders on the day of `now` |
| OrderStore.FilterOrders | src/store/useOrderStore.ts:168-191 | the result holds only orders passing both predicates, and every order passing both is kept |
| OrderStore.FilterOrdersConcat | src/store/useOrderStore.ts:191 | filtering is stable: it distributes over concatenation |
| OrderStore.FilterOrdersMultiplicity | src/store/useOrderStore.ts:191 | each passing order keeps its multiplicity, each failing one is gone |
| OrderStore.FilterAllAll | src/store/useOrderStore.ts:168-191 | with status 'all' and date 'all' the whole list is returned |
| OrderStore.OnDateWithoutDate | src/store/useOrderStore.ts:182-185 | the 'date' filter without a chosen date passes every order |
| OrderStore.InitialDraft | src/store/useOrderStore.ts:100-111 | no id, empty tower, customer, details and time, apartment and phone 0, the empty pay method, no items, dated at load time, pending, no total; its create request sends a total of 0 |
| OrderStore.DraftOf | src/store/useOrderStore.ts:196-199 | the draft carries the order's id and total, and its update body is the order's own fields without id and total |
| OrderStore.CreateRequest | src/store/useOrderStore.ts:226-238 | the create request has no id, the draft's items and total `computeTotal(draft.lunch)`; normalising it gives back every other field of the draft |
| OrderStore.UpdateRequest | src/store/useOrderStore.ts:263-274 | the update body is the create body without the total |
| OrderStore.StateRequest | src/store/useOrderStore.ts:315 | the body holds the new state and nothing else |
| OrderStore.ReplaceOrder | src/store/useOrderStore.ts:281 | length is kept, exactly the entries with the id are replaced, the others are unchanged |
| OrderStore.WithoutOrder | src/store/useOrderStore.ts:301 | no order with the id remains and every other order is kept |
| OrderStore.WithoutOrderKeepsTheRest | src/store/useOrderStore.ts:301 | deletion keeps the others in order and with their multiplicity |
| Wrappers.ErrorMessage | src/store/useOrderStore.ts:215 | an `Error` contributes its message; any other thrown value gives the fallback |
| OrderStore.NormalizeAll | src/store/useOrderStore.ts:212 | every loaded order is normalised, in order |
| OrderStore.Store.constructor | src/store/useOrderStore.ts:137-145 | the initial state: no orders, the initial draft, form hidden, not editing, not loading, no error, no filters |
| OrderStore.Store.SetDraftTowerNum | src/store/useOrderStore.ts:148 | only the tower number of the draft changes |
| OrderStore.Store.SetDraftApto | src/store/useOrderStore.ts:149 | only the apartment of the draft changes |
| OrderStore.Store.SetDraftCustomer | src/store/useOrderStore.ts:150 | only the customer of the draft changes |
| OrderStore.Store.SetDraftPhoneNum | src/store/useOrderStore.ts:151 | only the phone number of the draft changes |
| OrderStore.Store.SetDraftPayMethod | src/store/useOrderStore.ts:152 | only the pay method of the draft changes |
| OrderStore.Store.SetDraftLunch | src/store/useOrderStore.ts:153 | only the items of the draft change |
| OrderStore.Store.SetDraftDetails | src/store/useOrderStore.ts:154 | only the details of the draft change |
| OrderStore.Store.SetDraftTime | src/store/useOrderStore.ts:155 | only the time of the draft changes |
| OrderStore.Store.SetDraftDate | src/store/useOrderStore.ts:156 | only the date of the draft changes |
| OrderStore.Store.SetDraftOrderState | src/store/useOrderStore.ts:157 | only the state of the draft changes |
| OrderStore.Store.ResetDraft | src/store/useOrderStore.ts:159 | the draft is the initial draft and editing is off |
| OrderStore.Store.ToggleOrderForm | src/store/useOrderStore.ts:160 | the form's visibility is negated, so toggling twice restores it |
| OrderStore.Store.SetStatusFilter | src/store/useOrderStore.ts:163 | only the status filter changes |
| OrderStore.Store.SetDateFilterType | src/store/useOrderStore.ts:164 | only the date filter kind changes |
| OrderStore.Store.SetDateFilterDate | src/store/useOrderStore.ts:165 | only the chosen date changes |
| OrderStore.Store.ClearFilters | src/store/useOrderStore.ts:166 | the three filter fields are reset, nothing else changes |
| OrderStore.Store.FilteredOrders | src/store/useOrderStore.ts:168-192 | the view is the stable filter of the store's orders by its current status and date filters; with no filters it is the whole list |
| OrderStore.Store.LoadOrderToDraft | src/store/useOrderStore.ts:196-199 | the draft becomes a copy of the order and editing is on |
| OrderStore.Store.SetEditingMode | src/store/useOrderStore.ts:202 | only the editing flag changes |
| OrderStore.Store.SetError | src/store/useOrderStore.ts:205 | only the error changes |
| OrderStore.Store.LoadOrders | src/store/useOrderStore.ts:208-218 | success replaces the list by the normalised response and clears the error; failure keeps the list and sets the message or the fallback; loading ends false; every order stays normalised |
| OrderStore.Store.AddOrderFromDraft | src/store/useOrderStore.ts:221-253 | sends the draft with its computed total; success prepends the normalised saved order before the unchanged old ones, resets the draft and editing; failure changes only error and loading |
| OrderStore.Store.UpdateOrderFromOrders | src/store/useOrderStore.ts:256-292 | without a non-empty draft id nothing changes and nothing is sent; otherwise success replaces exactly the orders with that id and resets the draft, failure changes only error and loading |
| OrderStore.Store.DeleteOrderById | src/store/useOrderStore.ts:295-308 | success removes exactly the orders with the id; failure keeps the list and sets the error |
| OrderStore.Store.UpdateOrderStateById | src/store/useOrderStore.ts:311-328 | always sends the new state; success replaces exactly the orders with the id; failure keeps the list and sets the error |
| OrderForm.Bump | src/components/forms/OrderForm.tsx:51 | an absent or numeric quantity goes up by 1 (absent counts as 1); a textual one becomes a string, equal in value to the increment only for "" and "0" |
| OrderForm.NewItem | src/components/forms/OrderForm.tsx:55 | the new item copies the lunch's id, title, image, tags and numeric price, has quantity 1, and is worth the lunch's price |
| OrderForm.AddLunchToDraft | src/components/forms/OrderForm.tsx:46-57 | the list keeps its length exactly when the lunch is already present; then the matching items get one more and the rest are unchanged; otherwise one item of quantity 1 is appended at the end |
| OrderForm.RemoveLunchFromDraft | src/components/forms/OrderForm.tsx:59-62 | no item with the id remains and every other item is kept |
| OrderForm.SetQuantityForLunch | src/components/forms/OrderForm.tsx:64-68 | length is kept, only the quantity of matching items changes, to exactly the given one, or to exactly 1 when it is below 1; the other items are unchanged |
| OrderForm.AddExistingIncrements | src/components/forms/OrderForm.tsx:51 | a numeric quantity goes up by 1 and a missing one becomes 2 |
| OrderForm.AddKeepsIdsDistinct | src/components/forms/OrderForm.tsx:46-57 | distinct item ids stay distinct after adding |
| OrderForm.AddTwiceMerges | src/components/forms/OrderForm.tsx:46-57 | adding a new lunch twice gives one item of quantity 2 at the end |
| OrderForm.EditsKeepQuantitiesAtLeastOne | src/components/forms/OrderForm.tsx:46-68 | if every quantity is a number of at least 1, add, set-quantity and remove keep it so |
| OrderForm.RemoveKeepsTheRest | src/components/forms/OrderForm.tsx:60 | removal keeps the other items in order and with their multiplicity |
| OrderForm.CalculatedFrom | src/components/forms/OrderForm.tsx:73 | the fold with `?? 0` adds the same line amounts as `computeTotal` |
| OrderForm.TotalCalculated | src/components/forms/OrderForm.tsx:71-74 | the form's total equals `computeTotal` of the draft items |
| OrderForm.SubmitItem | src/components/forms/OrderForm.tsx:137-140 | only the quantity changes; it becomes a number, a numeric one is kept, an absent one becomes 1 |
| OrderForm.SubmitQuantities | src/components/forms/OrderForm.tsx:137-140 | one item per draft item, each with its quantity coerced by `Number(q ?? 1)` |
| OrderForm.SubmitVersusNormalize | src/components/forms/OrderForm.tsx:139 | the form's coercion agrees with the store's normalisation exactly when the quantity is not the empty string, which the form makes 0 and the store 1 |
| OrderForm.SubmitKeepsNumbers | src/components/forms/OrderForm.tsx:139 | numeric quantities pass through the submit step unchanged |
| OrderForm.HandleSubmit | src/components/forms/OrderForm.tsx:134-150 | the coerced items are written to the draft; then update runs when editing, else add, with their effects on list, draft, editing flag, error and loading (a failure sets the add or update error message and keeps editing; a skipped update changes none of them); the form's visibility is always flipped; every order stays normalised |
| LunchStore.InitialDraft | src/store/useLunchStore.ts:21-26 | no id, empty title and image, price 0, no tags |
| LunchStore.NewLunch | src/store/useLunchStore.ts:42-48 | the new lunch copies the draft's fields; its id is the draft's when present, else the stamp |
| LunchStore.PrependKeepsIdsDistinct | src/store/useLunchStore.ts:49 | prepending a lunch with an unused id keeps ids distinct |
| LunchStore.Store.constructor | src/store/useLunchStore.ts:29-30 | no lunches and the initial draft |
| LunchStore.Store.SetDraftTitle | src/store/useLunchStore.ts:32 | only the title of the draft changes |
| LunchStore.Store.SetDraftImagen | src/store/useLunchStore.ts:33 | only the image of the draft changes |
| LunchStore.Store.SetDraftPrice | src/store/useLunchStore.ts:34 | only the price of the draft changes |
| LunchStore.Store.SetDraftTags | src/store/useLunchStore.ts:35 | only the tags of the draft change |
| LunchStore.Store.ResetDraftImagen | src/store/useLunchStore.ts:37 | the image becomes empty, the other draft fields are unchanged |
| LunchStore.Store.ResetDraft | src/store/useLunchStore.ts:38 | the draft is the initial draft (empty title and image, price 0, no tags) |
| LunchStore.Store.AddLunchFromDraft | src/store/useLunchStore.ts:40-51 | the list grows by one, the new lunch built from the draft with the stamp as id comes first, the old ones follow unchanged, the draft is reset, and a fresh stamp keeps ids distinct |
| ExpenseStore.InitialDraft | src/store/useExpenseStore.ts:28-35 | a purchase with no id, empty texts, amount 0, dated at load time; it is already a create request |
| ExpenseStore.DraftOf | src/store/useExpenseStore.ts:74 | the draft is a copy of every field of the expense, id included |
| ExpenseStore.CreateRequest | src/store/useExpenseStore.ts:93-100 | the request is the draft without its id |
| ExpenseStore.WithoutExpense | src/store/useExpenseStore.ts:115 | no expense with the id remains and every other expense is kept |
| ExpenseStore.WithoutExpenseKeepsTheRest | src/store/useExpenseStore.ts:115 | deletion keeps the others in order and with their multiplicity, and a second deletion changes nothing |
| ExpenseStore.Store.constructor | src/store/useExpenseStore.ts:58-62 | no expenses, form hidden, not loading, no error, the initial draft |
| ExpenseStore.Store.SetDraftKind | src/store/useExpenseStore.ts:64 | only the kind of the draft changes |
| ExpenseStore.Store.SetDraftTitle | src/store/useExpenseStore.ts:65 | only the title of the draft changes |
| ExpenseStore.Store.SetDraftDescription | src/store/useExpenseStore.ts:66 | only the description of the draft changes |
| ExpenseStore.Store.SetDraftAmount | src/store/useExpenseStore.ts:67 | only the amount of the draft changes |
| ExpenseStore.Store.SetDraftTime | src/store/useExpenseStore.ts:68 | only the time of the draft changes |
| ExpenseStore.Store.SetDraftDate | src/store/useExpenseStore.ts:69 | only the date of the draft changes |
| ExpenseStore.Store.ResetDraft | src/store/useExpenseStore.ts:71 | the draft is the initial draft; the list and the form flag are untouched |
| ExpenseStore.Store.ToggleExpenseForm | src/store/useExpenseStore.ts:72 | the form's visibility is negated, so toggling twice restores it |
| ExpenseStore.Store.LoadExpenseToDraft | src/store/useExpenseStore.ts:74 | the draft becomes a copy of the expense and the form is shown |
| ExpenseStore.Store.SetError | src/store/useExpenseStore.ts:76 | only the error changes |
| ExpenseStore.Store.LoadExpenses | src/store/useExpenseStore.ts:78-87 | success replaces the list wholesale and leaves the error cleared; failure keeps the list and sets the message or the fallback; loading ends false |
| ExpenseStore.Store.AddExpenseFromDraft | src/store/useExpenseStore.ts:89-108 | sends the draft without id; success prepends the returned expense, resets the draft, hides the form; failure keeps list, draft and form and sets the error |
| ExpenseStore.Store.DeleteExpenseById | src/store/useExpenseStore.ts:110-120 | success removes exactly the expenses with the id; failure keeps the list and sets the error |
| ViewOrder.LineOf | src/components/custom/ViewOrder.tsx:43-53 | a line's quantity and price are the coerced item fields and its subtotal their product, equal to the item's line amount |
| ViewOrder.Lines | src/components/custom/ViewOrder.tsx:43 | one line per item, in the same order |
| ViewOrder.SumSubtotals | src/components/custom/ViewOrder.tsx:57 | the fold is the running sum plus all the subtotals; with non-negative subtotals it never lowers the running sum |
| ViewOrder.SumQty | src/components/custom/ViewOrder.tsx:58 | the fold is the running sum plus all the quantities; with non-negative quantities it never lowers the running sum |
| ViewOrder.SubtotalsAddUpToTotal | src/components/custom/ViewOrder.tsx:57 | the sum of the subtotals equals `computeTotal` of the items |
| ViewOrder.QuantitiesAddUp | src/components/custom/ViewOrder.tsx:58 | the sum of the line quantities equals the items' total quantity |
| ViewOrder.ComputeTotals | src/components/custom/ViewOrder.tsx:42-59 | one line per item in order with subtotal unit times quantity; the total is the draft's own when present, else `computeTotal`; the total quantity is the sum of quantities |
| ViewOrder.ThreeOfOneExample | src/components/custom/ViewOrder.tsx:42-59 | three of a 1000 lunch preview a total of 3000 and a quantity of 3 |
| ViewForm.WithoutTag | src/components/custom/ViewForm.tsx:9 | the tag no longer occurs and every other tag is kept |
| ViewForm.WithoutTagKeepsOthers | src/components/custom/ViewForm.tsx:9 | the other tags keep their order and multiplicity |
| ViewForm.WithoutAbsentTag | src/components/custom/ViewForm.tsx:9 | removing an absent tag changes nothing |
| ViewForm.WithoutTagIdempotent | src/components/custom/ViewForm.tsx:9 | removing a tag twice equals removing it once |
| ViewForm.RemoveTag | src/components/custom/ViewForm.tsx:8-10 | only the draft's tags change, to the filtered list |

## Left out

- Network I/O: `src/services/api.ts` and every `await apiService.*` call.
  Each call is an `Outcome` parameter. The HTTP error text is folded into the
  thrown message. The id that the update calls pass next to their body is not
  part of the returned request.
- Persistence: the `persist` middleware, `getStorage`, `partialize` and
  rehydration (localStorage I/O).
- Concurrency: each asynchronous action is one atomic transition. The
  model does not cover interleaving with other actions, or `loading` as a
  guard. It also does not cover order: in `handleSubmit` the form is toggled
  before the unawaited add or update settles. The model applies the action
  first and toggles afterwards, so the final state is the same.
- Clock and randomness: `Date.now()` in the lunch store is the `stamp`
  parameter. `new Date()` in `filteredOrders` is the `now` parameter. The
  module-load `new Date()` of the initial drafts is the store's `loadedAt`.
  The `Math.random` fallback id of the preview is left out, because every
  modelled item has an id; so is the `"Item"` title fallback.
- `Number()` of a non-numeric string (NaN) and floating point: every numeric
  value is an integer, and a textual number is a decimal numeral.
- Time zones and daylight saving: a moment is local time as a day number plus
  milliseconds. `formatDateLong`, the locale formatting and the DatePicker
  and time parsing of the order form are left out.
- Date parsing: which strings `new Date(s)` accepts is not modelled. A textual
  date arrives already parsed (`DateText(Some(..))`) or rejected
  (`DateText(None)`). The date filter compares normalised order dates only.
- Optional text fields (`customer`, `details`, `time`) are strings; a missing
  one is already `''` after normalisation.
- OrderStore.Store.SetDraftDate: takes a date or nothing; a string date in
  the order draft is not modelled.
- The JSX of every component, and the pure UI files.
- The lunch page members that the lunch store does not define (`showLunchForm`,
  `loadLunches`, `setEditingMode`).
- A response without `order` or `updated`: `normalizeOrder(undefined)` throws
  a `TypeError` inside the `try`. That is an `Error`, so the store keeps its
  own message, not the fallback. The model always receives a record on
  success; such a response is an `Err(ErrorObject(..))` outcome.
- A create-expense response without `expense` does not throw. The store then
  prepends `undefined` to the list. The model always receives an expense on
  success and does not cover this.
