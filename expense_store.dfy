/** src/store/useExpenseStore.ts: the expense list, its form draft and its API transitions. */
module ExpenseStore {
  import opened Wrappers
  import opened Dates
  import Lists

  /** An expense date is a `Date` or, after `setDraftDate` with text, a string. */
  datatype ExpenseDate = At(instant: Instant) | Written(text: string)

  datatype Expense = Expense(
    id: string, kind: string, title: string, description: string,
    amount: int, time: string, date: ExpenseDate)

  datatype ExpenseDraft = ExpenseDraft(
    id: Option<string>, kind: string, title: string, description: string,
    amount: int, time: string, date: ExpenseDate)

  /** `initialDraft`, whose date is the moment the module was loaded. */
  function InitialDraft(loadedAt: Instant): (d: ExpenseDraft)
    ensures d.id.None? && d.kind == "purchase" && d.amount == 0 && d.date == At(loadedAt)
    ensures d.title == "" && d.description == "" && d.time == ""
    ensures CreateRequest(d) == d
  {
    ExpenseDraft(None, "purchase", "", "", 0, "", At(loadedAt))
  }

  /** `{ ...expense }` as a draft: every field, the id included. */
  function DraftOf(e: Expense): (d: ExpenseDraft)
    ensures d.id == Some(e.id)
    ensures Expense(d.id.value, d.kind, d.title, d.description, d.amount, d.time, d.date) == e
  {
    ExpenseDraft(Some(e.id), e.kind, e.title, e.description, e.amount, e.time, e.date)
  }

  /** The draft's fields without its id, as sent to the API. */
  function CreateRequest(d: ExpenseDraft): (r: ExpenseDraft)
    ensures r.id.None? && r.(id := d.id) == d
  {
    d.(id := None)
  }

  function WithoutExpense(expenses: seq<Expense>, id: string): (r: seq<Expense>)
    ensures forall i :: 0 <= i < |r| ==> r[i] in expenses && r[i].id != id
    ensures forall i :: 0 <= i < |expenses| && expenses[i].id != id ==> expenses[i] in r
  {
    Lists.Filter(expenses, (e: Expense) => e.id != id)
  }

  /** Deleting keeps the other expenses in order and with their multiplicity; a second delete changes nothing. */
  lemma WithoutExpenseKeepsTheRest(a: seq<Expense>, b: seq<Expense>, id: string, e: Expense)
    ensures WithoutExpense(a + b, id) == WithoutExpense(a, id) + WithoutExpense(b, id)
    ensures multiset(WithoutExpense(a, id))[e] == if e.id != id then multiset(a)[e] else 0
    ensures WithoutExpense(WithoutExpense(a, id), id) == WithoutExpense(a, id)
  {
    Lists.FilterConcat(a, b, (e: Expense) => e.id != id);
    Lists.FilterMultiplicity(a, (e: Expense) => e.id != id, e);
    Lists.FilterIdempotent(a, (e: Expense) => e.id != id);
  }

  const LoadFallback := "Error al cargar egresos"
  const CreateFallback := "Error creating expense"
  const DeleteFallback := "Error deleting expense"

  class Store {
    var expenses: seq<Expense>
    var showExpenseForm: bool
    var loading: bool
    var error: Option<string>
    var draft: ExpenseDraft
    /** When the module was loaded: the date of `initialDraft`. */
    const loadedAt: Instant

    constructor (loadedAt: Instant)
      ensures this.loadedAt == loadedAt && expenses == [] && draft == InitialDraft(loadedAt)
      ensures !showExpenseForm && !loading && error.None?
    {
      this.loadedAt := loadedAt;
      expenses, showExpenseForm, loading, error := [], false, false, None;
      draft := InitialDraft(loadedAt);
    }

    method SetDraftKind(kind: string)
      modifies this`draft
      ensures draft == old(draft).(kind := kind)
    {
      draft := draft.(kind := kind);
    }

    method SetDraftTitle(title: string)
      modifies this`draft
      ensures draft == old(draft).(title := title)
    {
      draft := draft.(title := title);
    }

    method SetDraftDescription(description: string)
      modifies this`draft
      ensures draft == old(draft).(description := description)
    {
      draft := draft.(description := description);
    }

    method SetDraftAmount(amount: int)
      modifies this`draft
      ensures draft == old(draft).(amount := amount)
    {
      draft := draft.(amount := amount);
    }

    method SetDraftTime(time: string)
      modifies this`draft
      ensures draft == old(draft).(time := time)
    {
      draft := draft.(time := time);
    }

    method SetDraftDate(date: ExpenseDate)
      modifies this`draft
      ensures draft == old(draft).(date := date)
    {
      draft := draft.(date := date);
    }

    method ResetDraft()
      modifies this`draft
      ensures draft == InitialDraft(loadedAt)
    {
      draft := InitialDraft(loadedAt);
    }

    /** Flips the form's visibility; doing it twice restores it. */
    method ToggleExpenseForm()
      modifies this`showExpenseForm
      ensures showExpenseForm == !old(showExpenseForm)
    {
      showExpenseForm := !showExpenseForm;
    }

    method LoadExpenseToDraft(e: Expense)
      modifies this`draft, this`showExpenseForm
      ensures draft == DraftOf(e) && showExpenseForm
    {
      draft, showExpenseForm := DraftOf(e), true;
    }

    method SetError(e: Option<string>)
      modifies this`error
      ensures error == e
    {
      error := e;
    }

    /** `loadExpenses`: clears the error, then replaces the list wholesale on success. */
    method LoadExpenses(response: Outcome<seq<Expense>>)
      modifies this`expenses, this`loading, this`error
      ensures !loading
      ensures response.Ok? ==> expenses == response.value && error.None?
      ensures response.Err? ==> expenses == old(expenses) && error == Some(ErrorMessage(response.thrown, LoadFallback))
    {
      loading, error := true, None;
      match response
      case Ok(fetched) =>
        expenses, loading := fetched, false;
      case Err(thrown) =>
        error, loading := Some(ErrorMessage(thrown, LoadFallback)), false;
    }

    /** `addExpenseFromDraft`: on success prepends the saved expense, resets the draft and hides the form. */
    method AddExpenseFromDraft(response: Outcome<Expense>) returns (request: ExpenseDraft)
      modifies this`expenses, this`draft, this`showExpenseForm, this`loading, this`error
      ensures !loading
      ensures request == CreateRequest(old(draft))
      ensures response.Ok? ==>
        && expenses == [response.value] + old(expenses)
        && draft == InitialDraft(loadedAt) && !showExpenseForm && error.None?
      ensures response.Err? ==>
        && expenses == old(expenses) && draft == old(draft) && showExpenseForm == old(showExpenseForm)
        && error == Some(ErrorMessage(response.thrown, CreateFallback))
    {
      loading, error := true, None;
      request := CreateRequest(draft);
      match response
      case Ok(saved) =>
        expenses := [saved] + expenses;
        draft, showExpenseForm, loading := InitialDraft(loadedAt), false, false;
      case Err(thrown) =>
        error, loading := Some(ErrorMessage(thrown, CreateFallback)), false;
    }

    /** `deleteExpenseById`: on success every expense with that id is dropped. */
    method DeleteExpenseById(id: string, response: Outcome<()>)
      modifies this`expenses, this`loading, this`error
      ensures !loading
      ensures response.Ok? ==> expenses == WithoutExpense(old(expenses), id) && error.None?
      ensures response.Err? ==> expenses == old(expenses) && error == Some(ErrorMessage(response.thrown, DeleteFallback))
    {
      loading, error := true, None;
      match response
      case Ok(_) =>
        expenses, loading := WithoutExpense(expenses, id), false;
      case Err(thrown) =>
        error, loading := Some(ErrorMessage(thrown, DeleteFallback)), false;
    }
  }
}
