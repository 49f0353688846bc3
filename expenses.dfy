/** The expenses reducer: an ordered list of expenses, appended to,
    filtered by id and edited by id. */
module Expenses {
  import opened Wrappers
  import opened Actions

  /** The state before any action: no expenses. */
  const ExpensesReducerDefaultState: seq<Expense> := []

  /** The ids occurring in a list of expenses. */
  function IdSet(s: seq<Expense>): (ids: set<string>) {
    set e | e in s :: e.id
  }

  /** No two expenses in the list share an id. */
  predicate UniqueIds(s: seq<Expense>) {
    forall i, j :: 0 <= i < j < |s| ==> s[i].id != s[j].id
  }

  /** The default state is the empty list, which holds no ids and so
      satisfies the uniqueness invariant. */
  lemma DefaultStateIsEmpty()
    ensures |ExpensesReducerDefaultState| == 0 && IdSet(ExpensesReducerDefaultState) == {}
    ensures UniqueIds(ExpensesReducerDefaultState)
  {
  }

  /** Whether the filter of "REMOVE_EXPENSE" keeps `e`: its id differs
      from the action's id, which may be absent (`undefined`). */
  predicate Kept(e: Expense, target: Option<string>) {
    Some(e.id) != target
  }

  // ---------------------------------------------------------------------
  // Field-level merge `{ ...expense, ...updates }`

  /** The expense with every field present in `u` overwritten: updates
      win where present, old values survive where absent, and the id never
      changes. */
  function Merge(e: Expense, u: ExpenseFields): (r: Expense)
    ensures r.id == e.id
    ensures r.description == (if u.description.Some? then u.description.value else e.description)
    ensures r.note == (if u.note.Some? then u.note.value else e.note)
    ensures r.amount == (if u.amount.Some? then u.amount.value else e.amount)
    ensures r.createdAt == (if u.createdAt.Some? then u.createdAt.value else e.createdAt)
  {
    Expense(
      e.id,
      u.description.GetOr(e.description),
      u.note.GetOr(e.note),
      u.amount.GetOr(e.amount),
      u.createdAt.GetOr(e.createdAt))
  }

  /** Two update records spread one after the other, `{ ...u1, ...u2 }`. */
  function Overlay(u1: ExpenseFields, u2: ExpenseFields): (u: ExpenseFields) {
    ExpenseFields(
      u1.description.Or(u2.description),
      u1.note.Or(u2.note),
      u1.amount.Or(u2.amount),
      u1.createdAt.Or(u2.createdAt))
  }

  /** Merging an empty update is the identity; merging twice is merging
      the overlay of both updates once. */
  lemma MergeAlgebra(e: Expense, u1: ExpenseFields, u2: ExpenseFields)
    ensures Merge(e, NoFields) == e
    ensures Merge(Merge(e, u1), u2) == Merge(e, Overlay(u1, u2))
    ensures Merge(Merge(e, u1), u1) == Merge(e, u1)
  {
  }

  // ---------------------------------------------------------------------
  // "REMOVE_EXPENSE": `state.filter(({ id }) => id !== action.id)`

  function RemoveById(s: seq<Expense>, target: Option<string>): (r: seq<Expense>)
    ensures |r| <= |s|
    ensures forall e :: e in r <==> e in s && Kept(e, target)
  {
    if s == [] then []
    else (if Kept(s[0], target) then [s[0]] else []) + RemoveById(s[1..], target)
  }

  /** The filter distributes over concatenation, so it keeps the relative
      order of the surviving expenses. */
  lemma {:induction false} RemoveConcat(a: seq<Expense>, b: seq<Expense>, target: Option<string>)
    ensures RemoveById(a + b, target) == RemoveById(a, target) + RemoveById(b, target)
  {
    if a == [] {
      assert a + b == b;
    } else {
      assert (a + b)[1..] == a[1..] + b;
      RemoveConcat(a[1..], b, target);
    }
  }

  /** Every kept expense keeps all its copies; every removed one has none. */
  lemma {:induction false} RemoveCounts(s: seq<Expense>, target: Option<string>, e: Expense)
    ensures multiset(RemoveById(s, target))[e] == if Kept(e, target) then multiset(s)[e] else 0
  {
    if s != [] {
      var head := if Kept(s[0], target) then [s[0]] else [];
      RemoveCounts(s[1..], target, e);
      assert multiset(RemoveById(s, target)) == multiset(head) + multiset(RemoveById(s[1..], target));
      assert s == [s[0]] + s[1..];
      assert multiset(s) == multiset([s[0]]) + multiset(s[1..]);
    }
  }

  /** Removing an id that no expense has returns the list unchanged. */
  lemma {:induction false} RemoveAbsent(s: seq<Expense>, target: Option<string>)
    requires forall e :: e in s ==> Kept(e, target)
    ensures RemoveById(s, target) == s
  {
    if s != [] {
      RemoveAbsent(s[1..], target);
      assert s == [s[0]] + s[1..];
    }
  }

  /** With unique ids, no expense before or after position `k` has its id. */
  lemma UniqueAround(s: seq<Expense>, k: nat)
    requires UniqueIds(s) && k < |s|
    ensures forall e :: e in s[..k] ==> Kept(e, Some(s[k].id))
    ensures forall e :: e in s[k + 1..] ==> Kept(e, Some(s[k].id))
  {
  }

  /** The filter drops a leading expense it does not keep. */
  lemma RemoveDropsHead(x: Expense, rest: seq<Expense>, target: Option<string>)
    requires !Kept(x, target)
    ensures RemoveById([x] + rest, target) == RemoveById(rest, target)
  {
  }

  /** A list is its prefix, the element at `k` and its suffix. */
  lemma SplitAt(s: seq<Expense>, k: nat)
    requires k < |s|
    ensures s == s[..k] + ([s[k]] + s[k + 1..])
  {
  }

  /** With unique ids, removing the id of the expense at `k` removes
      exactly that expense and nothing else. */
  lemma {:induction false} RemoveUnique(s: seq<Expense>, k: nat)
    requires UniqueIds(s) && k < |s|
    ensures RemoveById(s, Some(s[k].id)) == s[..k] + s[k + 1..]
    ensures |RemoveById(s, Some(s[k].id))| == |s| - 1
  {
    var t := Some(s[k].id);
    UniqueAround(s, k);
    RemoveAbsent(s[..k], t);
    RemoveAbsent(s[k + 1..], t);
    RemoveDropsHead(s[k], s[k + 1..], t);
    SplitAt(s, k);
    RemoveConcat(s[..k], [s[k]] + s[k + 1..], t);
  }

  /** The filter never breaks uniqueness of ids. */
  lemma {:induction false} RemoveKeepsUniqueIds(s: seq<Expense>, target: Option<string>)
    requires UniqueIds(s)
    ensures UniqueIds(RemoveById(s, target))
  {
    if s != [] {
      var rest := RemoveById(s[1..], target);
      RemoveKeepsUniqueIds(s[1..], target);
      if Kept(s[0], target) {
        var r := [s[0]] + rest;
        forall i, j | 0 <= i < j < |r| ensures r[i].id != r[j].id {
          if i == 0 {
            assert r[j] in s[1..];
            var m :| 0 <= m < |s| - 1 && s[1..][m] == r[j];
            assert s[m + 1] == r[j];
          } else {
            assert r[i] == rest[i - 1] && r[j] == rest[j - 1];
          }
        }
      }
    }
  }

  // ---------------------------------------------------------------------
  // "EDIT_EXPENSE": `state.map(e => e.id === action.id ? { ...e, ...updates } : e)`

  function EditById(s: seq<Expense>, id: string, u: ExpenseFields): (r: seq<Expense>)
    ensures |r| == |s|
    ensures forall i :: 0 <= i < |s| ==> r[i] == if s[i].id == id then Merge(s[i], u) else s[i]
  {
    if s == [] then []
    else [if s[0].id == id then Merge(s[0], u) else s[0]] + EditById(s[1..], id, u)
  }

  /** An edit leaves every expense's id where it was. */
  lemma EditKeepsIds(s: seq<Expense>, id: string, u: ExpenseFields)
    ensures IdSet(EditById(s, id, u)) == IdSet(s)
    ensures UniqueIds(s) ==> UniqueIds(EditById(s, id, u))
  {
  }

  /** Editing an id that no expense has returns the list unchanged. */
  lemma EditAbsent(s: seq<Expense>, id: string, u: ExpenseFields)
    requires id !in IdSet(s)
    ensures EditById(s, id, u) == s
  {
  }

  /** With unique ids, an edit replaces exactly the one matching expense. */
  lemma EditUnique(s: seq<Expense>, k: nat, u: ExpenseFields)
    requires UniqueIds(s) && k < |s|
    ensures EditById(s, s[k].id, u) == s[k := Merge(s[k], u)]
  {
  }

  /** Two edits of the same id amount to one edit with the overlaid updates. */
  lemma EditTwice(s: seq<Expense>, id: string, u1: ExpenseFields, u2: ExpenseFields)
    ensures EditById(EditById(s, id, u1), id, u2) == EditById(s, id, Overlay(u1, u2))
  {
  }

  // ---------------------------------------------------------------------
  // The reducer

  /** `expensesReducer(state, action)`. */
  function ExpensesReducer(state: seq<Expense>, action: Action): (r: seq<Expense>)
    ensures action.Add? ==> |r| == |state| + 1 && r[..|state|] == state && r[|state|] == action.expense
    ensures action.Remove? ==> forall e :: e in r <==> e in state && Some(e.id) != action.target
    ensures action.Edit? ==> |r| == |state|
    ensures action.Edit? ==> forall i :: 0 <= i < |r| ==>
      r[i] == if state[i].id == action.id then Merge(state[i], action.updates) else state[i]
    ensures action.SetText? || action.Unhandled? ==> r == state
  {
    match action
    case Add(e) => state + [e]
    case Remove(id) => RemoveById(state, id)
    case Edit(id, updates) => EditById(state, id, updates)
    case SetText(_) => state
    case Unhandled => state
  }

  /** The ids after an action are the ids before it, plus the added one. */
  lemma ReducerIds(state: seq<Expense>, action: Action)
    ensures IdSet(ExpensesReducer(state, action)) <= IdSet(state) + (if action.Add? then {action.expense.id} else {})
  {
  }

  /** Every action keeps ids unique, provided an added expense's id is fresh. */
  lemma ReducerKeepsUniqueIds(state: seq<Expense>, action: Action)
    requires UniqueIds(state)
    requires action.Add? ==> action.expense.id !in IdSet(state)
    ensures UniqueIds(ExpensesReducer(state, action))
  {
    match action
    case Add(e) =>
      var r := state + [e];
      forall i, j | 0 <= i < j < |r| ensures r[i].id != r[j].id {
        if j == |state| {
          assert state[i] in state;
        }
      }
    case Remove(id) => RemoveKeepsUniqueIds(state, id);
    case Edit(id, u) => EditKeepsIds(state, id, u);
    case SetText(_) =>
    case Unhandled =>
  }

  /** Two adds append their expenses at the end, in dispatch order. */
  lemma AddsAppendInOrder(state: seq<Expense>, first: Expense, second: Expense)
    ensures ExpensesReducer(ExpensesReducer(state, Add(first)), Add(second)) == state + [first, second]
  {
  }

  /** Adding an expense with a fresh id and then removing that id gives
      back the list as it was. */
  lemma AddThenRemove(state: seq<Expense>, id: string, fields: ExpenseFields)
    requires id !in IdSet(state)
    ensures ExpensesReducer(ExpensesReducer(state, AddExpense(id, fields)), RemoveExpense(Some(id))) == state
  {
    var e := AddExpense(id, fields).expense;
    RemoveConcat(state, [e], Some(id));
    RemoveAbsent(state, Some(id));
    assert RemoveById([e], Some(id)) == [];
  }
}
