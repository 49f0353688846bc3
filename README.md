# Expensify state reducers in Dafny

A model of the state logic of `src/playground/redux-expensify.js`, a small
Redux demonstration for an expense tracker. The script defines four action
creators (`addExpense`, `removeExpense`, `editExpense`, `setTextFilter`), two
reducers (`expensesReducer` over an ordered list of expenses,
`filtersReducer` over one filter-settings record), combines them under the keys
`expenses` and `filters`, and dispatches a short demonstration sequence.

The reducers and the `removeExpense`, `editExpense` and `setTextFilter`
creators are pure: they build object literals and return fresh values made
with spread, `filter` and `map`. `addExpense` is pure except for the id it
takes from `uuid()`, which is random. The store around them is stateful: it
is created, subscribed to with a logging listener and dispatched to. The model
covers the pure part, written as datatypes, functions and lemmas:

- `wrappers.dfy` (`Wrappers`): `Option`, standing for a property that is
  omitted or `undefined`.
- `actions.dfy` (`Actions`): the `Expense` record and the partial record
  `ExpenseFields`. The same partial record is the input of `addExpense` and the
  `updates` of `editExpense`. Also the `Action` variants, one per handled
  `type` string plus `Unhandled` for any other type, and the four creators.
- `expenses.dfy` (`Expenses`): the field-level merge `{ ...expense, ...updates }`
  (`Merge`), the filter by id (`RemoveById`), the map by id (`EditById`) and
  `ExpensesReducer`, with the id-uniqueness invariant.
- `filters.dfy` (`Filters`): `FilterSettings`, the default settings and
  `FiltersReducer`.
- `root.dfy` (`Root`): the combined state, a reducer applying both slice
  reducers (standing in for `combineReducers`), a fold of a dispatch list, and
  the demonstration run.

Modelling decisions:

- `uuid()` is replaced by an id the caller passes to `AddExpense`. Freshness
  is a precondition of the lemmas that need it: `ReducerKeepsUniqueIds` and
  `AddThenRemove` require it for one added expense, `DispatchKeepsUniqueIds`
  requires it of every add in a dispatch list (`FreshAdds`), and `DemoRun`
  requires the demonstration's two ids to differ.
- `removeExpense({ id } = {})` may carry no id. The filter's test
  `id !== action.id` then keeps every expense, because every expense has a
  string id. The `Remove` action therefore holds an `Option<string>`.
- `ExpenseFields` has no `id` field. In the source, an `updates` object that
  contained `id` would overwrite the expense's id through the spread at
  lines 69-72. The model deliberately rules that input out, so an edit can
  never change an id (`EditKeepsIds`).
- Amounts and timestamps are unbounded integers. The source only ever passes
  integers.
- The reducers' `state = default` parameters are modelled by `InitialState`,
  which holds both default states.

## Model

| member | source | states |
|---|---|---|
| `Actions.AddExpense` | src/playground/redux-expensify.js:6-21 | builds an "ADD_EXPENSE" action whose expense carries the supplied id; each given field is copied, each omitted field takes its default ("" for description and note, 0 for amount and createdAt) |
| `Actions.AddExpenseDefaults` | src/playground/redux-expensify.js:6-21 | `addExpense()` with nothing given yields the expense with description "", note "", amount 0, createdAt 0 |
| `Actions.RemoveExpense` | src/playground/redux-expensify.js:24-27 | builds a "REMOVE_EXPENSE" action carrying the given, possibly absent, id |
| `Actions.EditExpense` | src/playground/redux-expensify.js:30-34 | builds an "EDIT_EXPENSE" action carrying the id and the updates unchanged |
| `Actions.SetTextFilter` | src/playground/redux-expensify.js:37-40 | builds a "SET_TEXT_FILTER" action whose text is the argument, or "" when none is given |
| `Expenses.DefaultStateIsEmpty` | src/playground/redux-expensify.js:46 | the expenses default state is the empty list, which holds no ids and satisfies the uniqueness invariant |
| `Expenses.Merge` | src/playground/redux-expensify.js:69-72 | in `{ ...expense, ...updates }` each field present in the updates wins, each absent one keeps its old value, and the id is unchanged |
| `Expenses.MergeAlgebra` | src/playground/redux-expensify.js:69-72 | merging empty updates is the identity; merging twice equals merging the overlay of both updates once; merging the same updates twice equals merging them once |
| `Expenses.RemoveById` | src/playground/redux-expensify.js:60-62 | an expense is in the result exactly when it is in the input and its id differs from the action's id; the result is no longer than the input |
| `Expenses.RemoveConcat` | src/playground/redux-expensify.js:60-62 | the filter distributes over concatenation, so surviving expenses keep their relative order |
| `Expenses.RemoveCounts` | src/playground/redux-expensify.js:60-62 | each surviving expense appears as often as in the input; each removed one appears nowhere |
| `Expenses.RemoveAbsent` | src/playground/redux-expensify.js:60-62 | removing an id that no expense has returns the input unchanged |
| `Expenses.RemoveUnique` | src/playground/redux-expensify.js:57-62 | with unique ids, removing the id of the expense at position k yields the list without exactly that element, one shorter |
| `Expenses.RemoveKeepsUniqueIds` | src/playground/redux-expensify.js:57-62 | the filter preserves uniqueness of ids |
| `Expenses.EditById` | src/playground/redux-expensify.js:66-76 | the result has the input's length; position i holds the merged expense when its id matches and the input's expense otherwise |
| `Expenses.EditKeepsIds` | src/playground/redux-expensify.js:64-76 | an edit leaves the set of ids unchanged and preserves their uniqueness |
| `Expenses.EditAbsent` | src/playground/redux-expensify.js:66-76 | editing an id that no expense has returns the input unchanged |
| `Expenses.EditUnique` | src/playground/redux-expensify.js:64-76 | with unique ids, editing the id of the expense at k replaces that one element by its merge and nothing else |
| `Expenses.EditTwice` | src/playground/redux-expensify.js:64-76 | two edits of the same id equal one edit with the overlaid updates |
| `Expenses.ExpensesReducer` | src/playground/redux-expensify.js:50-80 | "ADD_EXPENSE" appends the expense after the unchanged old list; "REMOVE_EXPENSE" keeps exactly the expenses whose id differs; "EDIT_EXPENSE" keeps length and merges exactly the matching positions; every other action returns the state unchanged |
| `Expenses.AddsAppendInOrder` | src/playground/redux-expensify.js:52-55 | two adds leave the two new expenses at the end of the list, in dispatch order |
| `Expenses.ReducerIds` | src/playground/redux-expensify.js:50-80 | the ids after any action are among the ids before it plus, for an add, the added id |
| `Expenses.ReducerKeepsUniqueIds` | src/playground/redux-expensify.js:50-80 | every action preserves uniqueness of ids, provided an added expense's id is fresh |
| `Expenses.AddThenRemove` | src/playground/redux-expensify.js:52-62 | adding an expense with a fresh id and then removing that id restores the list |
| `Filters.DefaultSettings` | src/playground/redux-expensify.js:84-89 | the default filter settings have text "", sortBy date, and no start or end date |
| `Filters.FiltersReducer` | src/playground/redux-expensify.js:92-102 | "SET_TEXT_FILTER" sets the text to the action's text; sortBy, startDate and endDate are never changed; every other action returns the state unchanged |
| `Filters.SetTextLastWins` | src/playground/redux-expensify.js:94-98 | of two text updates, only the second one matters |
| `Filters.SetTextIdentity` | src/playground/redux-expensify.js:94-98 | a text update leaves the settings unchanged exactly when the text is already the current one |
| `Filters.SetTextFilterFromDefaults` | src/playground/redux-expensify.js:84-98 | from the default settings (text "", sortBy date, no dates), `setTextFilter("rent")` gives text "rent", and a following `setTextFilter()` restores the defaults |
| `Root.RootReducer` | src/playground/redux-expensify.js:109-112 | every action reaches both slices: an add appends to the expenses and leaves the filters alone; removal and edit leave the filters alone and never grow the list; a text update changes only the filter text; other actions change nothing |
| `Root.DispatchAll` | src/playground/redux-expensify.js:127-146 | a dispatch list grows the list by at most one expense per action and never changes sortBy, startDate or endDate |
| `Root.DispatchAllAppend` | src/playground/redux-expensify.js:127-146 | dispatching two lists in turn equals dispatching their concatenation |
| `Root.DispatchKeepsUniqueIds` | src/playground/redux-expensify.js:50-80 | expense ids stay unique through any dispatch list whose adds carry fresh ids |
| `Root.DemoRun` | src/playground/redux-expensify.js:127-146 | with distinct ids, the demonstration passes through the filter text "rent" and ends with exactly one expense (the second id, "Coffee", amount 500) and the default filter settings |
| `Root.DemoCollidingIds` | src/playground/redux-expensify.js:127-138 | were the two generated ids equal, removing the first expense would remove both and the list would end empty |

## Left out

- `createStore`, `store.subscribe`, `store.getState` and `store.dispatch` (lines 105-119) belong to the Redux library, which is not part of this model. `combineReducers` is replaced by `Root.RootReducer` and repeated dispatch by `Root.DispatchAll`. The dispatch return value that the script uses to read the generated id is replaced by the ids passed in.
- `uuid()` (lines 2 and 15) generates random ids in a foreign library. Ids are parameters, and their freshness is a precondition where it matters.
- The subscriber's `console.log` (line 118) is output only.
- The `demoState` literal (lines 149-165) is sample data that no code uses.
- Object identity is not modelled. The source returns new arrays and objects even when nothing changes, for example from `filter` with no match. The model compares states by value only.
- JavaScript's dynamic typing is not modelled: malformed actions, non-integer amounts, `updates` with extra keys, an `id` key or keys explicitly set to `undefined` (which a spread would copy), and `editExpense` called without an id.
- Root.RootReducer: for removal and edit, its contract states only that the filters are untouched and that the list does not grow. The full effect on the list is the contract of `Expenses.ExpensesReducer`, which it applies.
