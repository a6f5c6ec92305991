/**
 * The platform admin dashboard's helpers: the sort-column state machine, the
 * approve/reject button states, and the query parameters built from the filters.
 */
module AdminDashboardPage {
  import opened Wrappers

  datatype SortField = Date | Location | Score
  datatype SortOrder = Asc | Desc
  datatype SortState = SortState(field: SortField, order: SortOrder)

  const InitialSort := SortState(Date, Desc)

  function Flip(o: SortOrder): SortOrder {
    if o == Asc then Desc else Asc
  }

  /** A click on a column header. */
  function HandleSortChange(st: SortState, field: SortField): SortState {
    if st.field == field then st.(order := Flip(st.order))
    else SortState(field, Desc)
  }

  lemma SortClick(st: SortState, field: SortField)
    ensures HandleSortChange(st, field).field == field
    ensures st.field == field ==> HandleSortChange(st, field).order != st.order
    ensures st.field != field ==> HandleSortChange(st, field).order == Desc
  {
  }

  /** Two clicks on the same column give back the state before them when that column
      was already the sort field; on a new column they end ascending. */
  lemma DoubleClickRestoresOrder(st: SortState, field: SortField)
    ensures HandleSortChange(HandleSortChange(st, field), field).order ==
      (if st.field == field then st.order else Asc)
    ensures st.field == field ==> HandleSortChange(HandleSortChange(st, field), field) == st
  {
  }

  /** Every sort state is reachable from the initial one in at most two clicks. */
  lemma EveryStateReachable(st: SortState)
    ensures st == InitialSort
         || HandleSortChange(InitialSort, st.field) == st
         || HandleSortChange(HandleSortChange(InitialSort, st.field), st.field) == st
  {
  }

  predicate ApproveDisabled(status: string) {
    status == "APPROVED"
  }

  predicate RejectDisabled(status: string) {
    status == "REJECTED"
  }

  /** At most one of the two buttons is disabled, and only for the two decided statuses. */
  lemma ButtonsNeverBothDisabled(status: string)
    ensures !(ApproveDisabled(status) && RejectDisabled(status))
    ensures status != "APPROVED" && status != "REJECTED" ==> !ApproveDisabled(status) && !RejectDisabled(status)
  {
  }

  datatype ApplicationFilter = All | NewOnes | UnderReview | Approved | Rejected

  function FilterLiteral(f: ApplicationFilter): string {
    match f
    case All => "all"
    case NewOnes => "new"
    case UnderReview => "under_review"
    case Approved => "approved"
    case Rejected => "rejected"
  }

  function StatusParam(f: ApplicationFilter): Option<string> {
    if f == All then None else Some(FilterLiteral(f))
  }

  /** `locationFilter || undefined`: the empty string sends no location. */
  function LocationParam(location: string): Option<string> {
    if location == "" then None else Some(location)
  }

  /** The query parameters of the dashboard's list. */
  datatype Query = Query(status: Option<string>, sortField: SortField, sortOrder: SortOrder, location: Option<string>)

  /** The status parameter is absent exactly for "all" and is the filter's own literal
      otherwise; the location is absent exactly when empty; the sort is the current one. */
  function BuildQuery(f: ApplicationFilter, st: SortState, location: string): (q: Query)
    ensures q.status.None? <==> f == All
    ensures f != All ==> q.status == Some(FilterLiteral(f))
    ensures q.location.None? <==> location == ""
    ensures location != "" ==> q.location == Some(location)
    ensures q.sortField == st.field && q.sortOrder == st.order
  {
    Query(StatusParam(f), st.field, st.order, LocationParam(location))
  }

  /** "all" and the empty location send nothing; other values go through unchanged, and
      the query tells different filters apart. */
  lemma FilterMapping(f: ApplicationFilter, g: ApplicationFilter, st: SortState, location: string)
    ensures BuildQuery(f, st, location).status.None? <==> f == All
    ensures f != All ==> BuildQuery(f, st, location).status == Some(FilterLiteral(f))
    ensures BuildQuery(f, st, location).location.None? <==> location == ""
    ensures location != "" ==> BuildQuery(f, st, location).location == Some(location)
    ensures BuildQuery(f, st, location).status == BuildQuery(g, st, location).status ==> f == g
  {
  }
}
