/** The two reducers combined under the keys `expenses` and `filters`,
    a dispatch sequence folded over them, and the demonstration run. */
module Root {
  import opened Wrappers
  import opened Actions
  import opened Expenses
  import opened Filters

  /** The combined state `{ expenses, filters }`. */
  datatype AppState = AppState(expenses: seq<Expense>, filters: FilterSettings)

  /** Each slice at its reducer's default state. */
  const InitialState: AppState := AppState(ExpensesReducerDefaultState, FilterReducerDefaultState)

  /** The combined reducer: every action goes to both reducers, each of
      which sees only its own slice. */
  function RootReducer(state: AppState, action: Action): (r: AppState)
    ensures action.Add? ==> r == AppState(state.expenses + [action.expense], state.filters)
    ensures action.Remove? || action.Edit? ==> r.filters == state.filters && |r.expenses| <= |state.expenses|
    ensures action.SetText? ==> r == AppState(state.expenses, state.filters.(text := action.text))
    ensures action.Unhandled? ==> r == state
  {
    AppState(ExpensesReducer(state.expenses, action), FiltersReducer(state.filters, action))
  }

  /** The state after dispatching `actions` in order, starting from `state`. */
  function DispatchAll(state: AppState, actions: seq<Action>): (r: AppState)
    ensures |r.expenses| <= |state.expenses| + |actions|
    ensures r.filters.sortBy == state.filters.sortBy
    ensures r.filters.startDate == state.filters.startDate && r.filters.endDate == state.filters.endDate
    decreases |actions|
  {
    if actions == [] then state
    else DispatchAll(RootReducer(state, actions[0]), actions[1..])
  }

  /** Dispatching two lists one after the other is dispatching their
      concatenation. */
  lemma {:induction false} DispatchAllAppend(state: AppState, first: seq<Action>, second: seq<Action>)
    ensures DispatchAll(state, first + second) == DispatchAll(DispatchAll(state, first), second)
    decreases |first|
  {
    if first == [] {
      assert first + second == second;
    } else {
      assert (first + second)[1..] == first[1..] + second;
      DispatchAllAppend(RootReducer(state, first[0]), first[1..], second);
    }
  }

  /** Every "ADD_EXPENSE" in `actions` carries an id not in `used` and not
      carried by an earlier add: what a generator of unique ids provides. */
  predicate FreshAdds(used: set<string>, actions: seq<Action>)
    decreases |actions|
  {
    if actions == [] then true
    else if actions[0].Add? then
      actions[0].expense.id !in used && FreshAdds(used + {actions[0].expense.id}, actions[1..])
    else FreshAdds(used, actions[1..])
  }

  /** Expense ids stay unique through any dispatch sequence whose adds
      carry fresh ids. */
  lemma {:induction false} DispatchKeepsUniqueIds(state: AppState, actions: seq<Action>, used: set<string>)
    requires UniqueIds(state.expenses) && IdSet(state.expenses) <= used
    requires FreshAdds(used, actions)
    ensures UniqueIds(DispatchAll(state, actions).expenses)
    decreases |actions|
  {
    if actions != [] {
      var a := actions[0];
      ReducerKeepsUniqueIds(state.expenses, a);
      ReducerIds(state.expenses, a);
      var used' := if a.Add? then used + {a.expense.id} else used;
      DispatchKeepsUniqueIds(RootReducer(state, a), actions[1..], used');
    }
  }

  /** Dispatching a non-empty list applies its first action, then the rest. */
  lemma DispatchCons(state: AppState, action: Action, rest: seq<Action>)
    ensures DispatchAll(state, [action] + rest) == DispatchAll(RootReducer(state, action), rest)
  {
  }

  /** Dispatching one action is applying the combined reducer once. */
  lemma DispatchOne(state: AppState, action: Action)
    ensures DispatchAll(state, [action]) == RootReducer(state, action)
  {
  }

  /** Dispatching five actions applies the combined reducer five times. */
  lemma DispatchFive(state: AppState, a0: Action, a1: Action, a2: Action, a3: Action, a4: Action)
    ensures DispatchAll(state, [a0, a1, a2, a3, a4])
         == RootReducer(RootReducer(RootReducer(RootReducer(RootReducer(state, a0), a1), a2), a3), a4)
  {
    var s1 := RootReducer(state, a0);
    var s2 := RootReducer(s1, a1);
    var s3 := RootReducer(s2, a2);
    var s4 := RootReducer(s3, a3);
    assert [a0, a1, a2, a3, a4] == [a0] + [a1, a2, a3, a4];
    DispatchCons(state, a0, [a1, a2, a3, a4]);
    assert [a1, a2, a3, a4] == [a1] + [a2, a3, a4];
    DispatchCons(s1, a1, [a2, a3, a4]);
    assert [a2, a3, a4] == [a2] + [a3, a4];
    DispatchCons(s2, a2, [a3, a4]);
    assert [a3, a4] == [a3] + [a4];
    DispatchCons(s3, a3, [a4]);
    DispatchOne(s4, a4);
  }

  /** Dispatching six actions applies the combined reducer six times. */
  lemma DispatchSix(state: AppState, a0: Action, a1: Action, a2: Action, a3: Action, a4: Action, a5: Action)
    ensures DispatchAll(state, [a0, a1, a2, a3, a4, a5])
         == RootReducer(DispatchAll(state, [a0, a1, a2, a3, a4]), a5)
  {
    assert [a0, a1, a2, a3, a4, a5] == [a0, a1, a2, a3, a4] + [a5];
    DispatchAllAppend(state, [a0, a1, a2, a3, a4], [a5]);
    DispatchOne(DispatchAll(state, [a0, a1, a2, a3, a4]), a5);
  }

  /** The dispatches of the demonstration, given the two generated ids. */
  function DemoActions(id1: string, id2: string): seq<Action> {
    [ AddExpense(id1, ExpenseFields(Some("Rent"), None, Some(100), None)),
      AddExpense(id2, ExpenseFields(Some("Coffee"), None, Some(300), None)),
      RemoveExpense(Some(id1)),
      EditExpense(id2, ExpenseFields(None, None, Some(500), None)),
      SetTextFilter(Some("rent")),
      SetTextFilter(None) ]
  }

  /** The state after the two adds of the demonstration. */
  lemma DemoAdds(id1: string, id2: string)
    ensures RootReducer(RootReducer(InitialState, DemoActions(id1, id2)[0]), DemoActions(id1, id2)[1])
         == AppState([Expense(id1, "Rent", "", 100, 0), Expense(id2, "Coffee", "", 300, 0)], FilterReducerDefaultState)
  {
  }

  /** Removing the first id of two leaves only the second expense, when the
      ids differ, and nothing at all when they are the same. */
  lemma DemoRemove(first: Expense, second: Expense)
    ensures RemoveById([first, second], Some(first.id))
         == if second.id == first.id then [] else [second]
  {
  }

  /** The edit of the demonstration sets the amount of its only expense. */
  lemma DemoEdit(coffee: Expense)
    ensures RootReducer(AppState([coffee], FilterReducerDefaultState), EditExpense(coffee.id, ExpenseFields(None, None, Some(500), None)))
         == AppState([coffee.(amount := 500)], FilterReducerDefaultState)
  {
    var r := EditById([coffee], coffee.id, ExpenseFields(None, None, Some(500), None));
    assert r[0] == coffee.(amount := 500);
  }

  /** With distinct ids, the demonstration ends with the single "Coffee"
      expense at amount 500 and the filter settings back at their defaults,
      after passing through the text "rent". */
  lemma {:induction false} DemoRun(id1: string, id2: string)
    requires id1 != id2
    ensures DispatchAll(InitialState, DemoActions(id1, id2)[..5]).filters.text == "rent"
    ensures DispatchAll(InitialState, DemoActions(id1, id2))
         == AppState([Expense(id2, "Coffee", "", 500, 0)], FilterReducerDefaultState)
  {
    var acts := DemoActions(id1, id2);
    var rent, coffee := Expense(id1, "Rent", "", 100, 0), Expense(id2, "Coffee", "", 300, 0);
    var s2 := AppState([rent, coffee], FilterReducerDefaultState);
    DemoAdds(id1, id2);
    DemoRemove(rent, coffee);
    var s3 := AppState([coffee], FilterReducerDefaultState);
    assert RootReducer(s2, acts[2]) == s3;
    DemoEdit(coffee);
    var s4 := AppState([coffee.(amount := 500)], FilterReducerDefaultState);
    var s5 := AppState(s4.expenses, FilterSettings("rent", Date, None, None));
    assert RootReducer(s4, acts[4]) == s5;
    assert RootReducer(s5, acts[5]) == s4;
    assert acts[..5] == [acts[0], acts[1], acts[2], acts[3], acts[4]];
    DispatchFive(InitialState, acts[0], acts[1], acts[2], acts[3], acts[4]);
    assert acts == [acts[0], acts[1], acts[2], acts[3], acts[4], acts[5]];
    DispatchSix(InitialState, acts[0], acts[1], acts[2], acts[3], acts[4], acts[5]);
  }

  /** Were both generated ids the same, removing the first expense would
      remove the second too, and the list would end empty. */
  lemma {:induction false} DemoCollidingIds(id: string)
    ensures DispatchAll(InitialState, DemoActions(id, id)).expenses == []
  {
    var acts := DemoActions(id, id);
    var rent, coffee := Expense(id, "Rent", "", 100, 0), Expense(id, "Coffee", "", 300, 0);
    var s2 := AppState([rent, coffee], FilterReducerDefaultState);
    DemoAdds(id, id);
    DemoRemove(rent, coffee);
    var s3 := AppState([], FilterReducerDefaultState);
    assert RootReducer(s2, acts[2]) == s3;
    assert RootReducer(s3, acts[3]).expenses == [];
    assert acts == [acts[0], acts[1], acts[2], acts[3], acts[4], acts[5]];
    DispatchFive(InitialState, acts[0], acts[1], acts[2], acts[3], acts[4]);
    DispatchSix(InitialState, acts[0], acts[1], acts[2], acts[3], acts[4], acts[5]);
  }
}
