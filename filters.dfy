/** The filters reducer: one settings record whose text is replaced. */
module Filters {
  import opened Wrappers
  import opened Actions

  /** The two orderings the settings name. */
  datatype SortBy = Date | Amount

  /** The filter settings; an absent date is `undefined`. */
  datatype FilterSettings = FilterSettings(text: string, sortBy: SortBy, startDate: Option<int>, endDate: Option<int>)

  /** The settings before any action: empty text, sorted by date, no dates. */
  const FilterReducerDefaultState: FilterSettings := FilterSettings("", Date, None, None)

  /** The default settings: empty text, sorted by date, no start or end date. */
  lemma DefaultSettings()
    ensures FilterReducerDefaultState.text == ""
    ensures FilterReducerDefaultState.sortBy == Date
    ensures FilterReducerDefaultState.startDate.None? && FilterReducerDefaultState.endDate.None?
  {
  }

  /** `filtersReducer(state, action)`: "SET_TEXT_FILTER" replaces the text
      and keeps every other setting; every other action changes nothing. */
  function FiltersReducer(state: FilterSettings, action: Action): (r: FilterSettings)
    ensures action.SetText? ==> r.text == action.text
    ensures r.sortBy == state.sortBy && r.startDate == state.startDate && r.endDate == state.endDate
    ensures !action.SetText? ==> r == state
  {
    match action
    case SetText(text) => state.(text := text)
    case _ => state
  }

  /** Only the last of two text updates matters. */
  lemma SetTextLastWins(state: FilterSettings, first: string, second: string)
    ensures FiltersReducer(FiltersReducer(state, SetText(first)), SetText(second))
         == FiltersReducer(state, SetText(second))
  {
  }

  /** A text update changes nothing exactly when it sets the text the
      settings already hold. */
  lemma SetTextIdentity(state: FilterSettings, text: string)
    ensures FiltersReducer(state, SetText(text)) == state <==> state.text == text
  {
  }

  /** From the defaults, `setTextFilter("rent")` sets the text, and a
      following `setTextFilter()` restores the defaults exactly. */
  lemma SetTextFilterFromDefaults()
    ensures FiltersReducer(FilterReducerDefaultState, SetTextFilter(Some("rent")))
         == FilterSettings("rent", Date, None, None)
    ensures FiltersReducer(FiltersReducer(FilterReducerDefaultState, SetTextFilter(Some("rent"))), SetTextFilter(None))
         == FilterReducerDefaultState
  {
  }
}
