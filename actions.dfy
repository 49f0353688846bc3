/** The records of the expense tracker and its four action creators. */
module Actions {
  import opened Wrappers

  /** One expense. `id` is assigned when the expense is created and is
      the key by which it is later removed or edited. */
  datatype Expense = Expense(id: string, description: string, note: string, amount: int, createdAt: int)

  /** A partial expense without an id: the argument of `addExpense`, whose
      omitted fields take defaults, and the `updates` of `editExpense`,
      whose present fields overwrite. Leaving `id` out is what keeps an
      edit from ever changing an expense's id. */
  datatype ExpenseFields = ExpenseFields(
    description: Option<string>,
    note: Option<string>,
    amount: Option<int>,
    createdAt: Option<int>)

  /** The empty partial record: `addExpense()` or `editExpense(id, {})`. */
  const NoFields: ExpenseFields := ExpenseFields(None, None, None, None)

  /** The dispatched actions, one variant per `type` string the reducers
      handle; `Unhandled` stands for an action of any other type. */
  datatype Action =
    | Add(expense: Expense)                    // "ADD_EXPENSE"
    | Remove(target: Option<string>)           // "REMOVE_EXPENSE", the `id` it carries
    | Edit(id: string, updates: ExpenseFields) // "EDIT_EXPENSE"
    | SetText(text: string)                    // "SET_TEXT_FILTER"
    | Unhandled                                // any other type

  /** `addExpense(fields)`: the id the caller supplies stands in for a
      freshly generated one; each omitted field takes its default. */
  function AddExpense(id: string, fields: ExpenseFields): (a: Action)
    ensures a.Add? && a.expense.id == id
    ensures fields.description.Some? ==> a.expense.description == fields.description.value
    ensures fields.description.None? ==> a.expense.description == ""
    ensures fields.note.Some? ==> a.expense.note == fields.note.value
    ensures fields.note.None? ==> a.expense.note == ""
    ensures fields.amount.Some? ==> a.expense.amount == fields.amount.value
    ensures fields.amount.None? ==> a.expense.amount == 0
    ensures fields.createdAt.Some? ==> a.expense.createdAt == fields.createdAt.value
    ensures fields.createdAt.None? ==> a.expense.createdAt == 0
  {
    Add(Expense(
      id,
      fields.description.GetOr(""),
      fields.note.GetOr(""),
      fields.amount.GetOr(0),
      fields.createdAt.GetOr(0)))
  }

  /** With every field omitted, `addExpense()` builds the all-default expense. */
  lemma AddExpenseDefaults(id: string)
    ensures AddExpense(id, NoFields) == Add(Expense(id, "", "", 0, 0))
  {
  }

  /** `removeExpense({ id } = {})`: the id may be absent. */
  function RemoveExpense(id: Option<string>): (a: Action)
    ensures a.Remove? && a.target == id
  {
    Remove(id)
  }

  /** `editExpense(id, updates)`. */
  function EditExpense(id: string, updates: ExpenseFields): (a: Action)
    ensures a.Edit? && a.id == id && a.updates == updates
  {
    Edit(id, updates)
  }

  /** `setTextFilter(text = "")`. */
  function SetTextFilter(text: Option<string>): (a: Action)
    ensures a.SetText?
    ensures text.Some? ==> a.text == text.value
    ensures text.None? ==> a.text == ""
  {
    SetText(text.GetOr(""))
  }
}
