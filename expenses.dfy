/** The Expenses admin page: the save-time validation and payload, the car
    and search filters, the filtered total, the car label, and the editor
    dialog's state. */
module Expenses {
  import opened Common
  import Rows

  /** `carName` is `Rows.CarLabel(cars, id, NoCarName)`: the car's name, or
      this text for a missing car or an empty name. */
  const NoCarName := "General Operations"

  /** A row of the `expenses` collection. */
  datatype Expense = Expense(id: string, carId: Option<string>, amount: int, description: string, expenseDate: string)

  /** The dialog form; `carId` is the select's value: `general`, a car id, or ''. */
  datatype Form = Form(carId: string, amount: int, description: string, expenseDate: string)

  /** The record written by `handleSave`. */
  datatype Payload = Payload(carId: Option<string>, amount: int, description: string, expenseDate: string)

  /** The form the page starts with. */
  function InitialForm(today: string): Form { Form("", 0, "", today) }

  /** The form after a save. */
  function ResetForm(today: string): Form { Form("general", 0, "", today) }

  /** `handleSave`'s guard: a positive amount and a description. */
  predicate CanSave(f: Form) {
    f.amount > 0 && f.description != ""
  }

  function PayloadOf(f: Form): Payload {
    Payload(if f.carId == "general" then None else OrNull(f.carId), f.amount, f.description, f.expenseDate)
  }

  /** The Edit button's prefill: a null car becomes ''. */
  function EditForm(e: Expense): Form {
    Form(OrElse(e.carId, ""), e.amount, e.description, e.expenseDate)
  }

  predicate MatchesCar(filterCar: string, e: Expense) {
    if filterCar == "all" then true
    else if filterCar == "general" then e.carId.None?
    else e.carId == Some(filterCar)
  }

  predicate MatchesSearch(search: string, e: Expense) {
    Contains(Lower(e.description), Lower(search))
  }

  predicate Matches(filterCar: string, search: string, e: Expense) {
    MatchesCar(filterCar, e) && MatchesSearch(search, e)
  }

  /** `filtered`. */
  function Filtered(expenses: seq<Expense>, filterCar: string, search: string): seq<Expense> {
    FilterSeq(expenses, (e: Expense) => Matches(filterCar, search, e))
  }

  /** `reduce((sum, e) => sum + Number(e.amount), acc)`. */
  function SumAmounts(acc: int, es: seq<Expense>): int
    decreases |es|
  {
    if |es| == 0 then acc else SumAmounts(acc + es[0].amount, es[1..])
  }

  /** `totalAmount`: the sum over the filtered rows only. */
  function TotalAmount(expenses: seq<Expense>, filterCar: string, search: string): int {
    SumAmounts(0, Filtered(expenses, filterCar, search))
  }

  // -------------------------------------------------------------------
  // Properties

  /** Only `general` and '' mean "no car"; any other value is sent as is. */
  lemma PayloadCar(f: Form)
    ensures PayloadOf(f).carId.None? <==> f.carId == "general" || f.carId == ""
    ensures PayloadOf(f).carId.Some? ==> PayloadOf(f).carId.value == f.carId
    ensures PayloadOf(f).amount == f.amount && PayloadOf(f).description == f.description
  {
  }

  /** Editing a stored expense and saving it sends the same values back,
      except that a stored car id of '' or `general` comes back null. */
  lemma EditRoundTrip(e: Expense)
    ensures PayloadOf(EditForm(e)) ==
      Payload(if e.carId == Some("general") || e.carId == Some("") then None else e.carId,
              e.amount, e.description, e.expenseDate)
  {
  }

  /** A row passes the filter exactly when it matches the car filter (`all`:
      every row; `general`: rows without a car; otherwise the same car id)
      and its description contains the search, ignoring case. */
  lemma FilterMembership(expenses: seq<Expense>, filterCar: string, search: string, e: Expense)
    requires e in expenses
    ensures e in Filtered(expenses, filterCar, search) <==> MatchesCar(filterCar, e) && MatchesSearch(search, e)
    ensures MatchesCar("all", e)
    ensures MatchesCar("general", e) <==> e.carId.None?
    ensures filterCar != "all" && filterCar != "general" ==> (MatchesCar(filterCar, e) <==> e.carId == Some(filterCar))
  {
  }

  /** The filtered list keeps the page's order. */
  lemma FilterKeepsOrder(expenses: seq<Expense>, filterCar: string, search: string)
    ensures IsSubseq(Filtered(expenses, filterCar, search), expenses)
  {
    FilterSubseq(expenses, (e: Expense) => Matches(filterCar, search, e));
  }

  /** With `all` and an empty search nothing is filtered out. */
  lemma {:induction false} NoFilter(expenses: seq<Expense>)
    ensures Filtered(expenses, "all", "") == expenses
  {
    forall i | 0 <= i < |expenses| ensures Matches("all", "", expenses[i]) {
      ContainsEmpty(Lower(expenses[i].description));
    }
    FilterAll(expenses, (e: Expense) => Matches("all", "", e));
  }

  function SumOf(es: seq<Expense>): int {
    if |es| == 0 then 0 else es[0].amount + SumOf(es[1..])
  }

  lemma {:induction false} SumAmountsIsSum(acc: int, es: seq<Expense>)
    ensures SumAmounts(acc, es) == acc + SumOf(es)
    decreases |es|
  {
    if |es| > 0 {
      SumAmountsIsSum(acc + es[0].amount, es[1..]);
    }
  }

  lemma {:induction false} SumSplits(es: seq<Expense>, p: Expense -> bool, q: Expense -> bool)
    requires forall e :: q(e) == !p(e)
    ensures SumOf(es) == SumOf(FilterSeq(es, p)) + SumOf(FilterSeq(es, q))
  {
    if |es| > 0 {
      SumSplits(es[1..], p, q);
    }
  }

  /** The total shown counts the filtered rows and only those: with the rows
      the filter leaves out it makes up the total of all rows. */
  lemma TotalOfFiltered(expenses: seq<Expense>, filterCar: string, search: string)
    ensures TotalAmount(expenses, filterCar, search) +
      SumOf(FilterSeq(expenses, (e: Expense) => !Matches(filterCar, search, e))) == SumOf(expenses)
    ensures TotalAmount(expenses, "all", "") == SumOf(expenses)
  {
    SumAmountsIsSum(0, Filtered(expenses, filterCar, search));
    SumSplits(expenses, (e: Expense) => Matches(filterCar, search, e), (e: Expense) => !Matches(filterCar, search, e));
    NoFilter(expenses);
    SumAmountsIsSum(0, expenses);
  }

  // -------------------------------------------------------------------
  // The editor dialog

  class ExpenseEditor {
    var form: Form
    var editId: Option<string>
    var open: bool

    constructor (today: string)
      ensures form == InitialForm(today) && editId.None? && !open
    {
      form := InitialForm(today);
      editId := None;
      open := false;
    }

    /** The dialog's `onOpenChange`: closing it forgets the edited id. */
    method SetOpen(v: bool)
      modifies this
      ensures open == v && form == old(form)
      ensures editId == if v then old(editId) else None
    {
      open := v;
      if !v {
        editId := None;
      }
    }

    /** A change to one of the form's inputs. */
    method EditFields(f: Form)
      modifies this
      ensures form == f && editId == old(editId) && open == old(open)
    {
      form := f;
    }

    /** The Edit button of a row. */
    method StartEdit(e: Expense)
      modifies this
      ensures form == EditForm(e) && editId == Some(e.id) && open
    {
      form := EditForm(e);
      editId := Some(e.id);
      open := true;
    }

    /** `handleSave`. A rejected form writes nothing and leaves the dialog as
        it is; otherwise the payload is sent as an update of the edited row,
        or as a new row, and the dialog closes with a fresh form. */
    method Save(today: string) returns (write: Option<Write<Payload>>)
      modifies this
      ensures !CanSave(old(form)) ==> write.None? && form == old(form) && editId == old(editId) && open == old(open)
      ensures CanSave(old(form)) ==>
        && write == Some(if Truthy(old(editId)) then Update(old(editId).value, PayloadOf(old(form)))
                         else Insert(PayloadOf(old(form))))
        && !open && editId.None? && form == ResetForm(today)
    {
      if form.amount <= 0 || form.description == "" {
        return None;
      }
      var payload := PayloadOf(form);
      if Truthy(editId) {
        write := Some(Update(editId.value, payload));
      } else {
        write := Some(Insert(payload));
      }
      open := false;
      editId := None;
      form := ResetForm(today);
    }
  }

  /** Editing a row and saving it straight away updates that row with its
      own values, provided the row has a positive amount and a description. */
  method EditThenSave(ed: ExpenseEditor, e: Expense, today: string) returns (write: Option<Write<Payload>>)
    requires e.amount > 0 && e.description != "" && e.id != ""
    modifies ed
    ensures write == Some(Update(e.id, PayloadOf(EditForm(e))))
    ensures !ed.open && ed.editId.None? && ed.form == ResetForm(today)
  {
    ed.StartEdit(e);
    write := ed.Save(today);
  }
}
