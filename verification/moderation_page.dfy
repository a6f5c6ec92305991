/**
 * The moderation queue page: which status changes each row offers, and the
 * status filter sent with the query. Item statuses are the strings the server sends.
 */
module ModerationPage {
  import opened Wrappers

  /** The buttons of a row, in display order: Start Review, Resolve, Dismiss. */
  function OfferedTransitions(status: string): seq<string> {
    (if status == "NEW" then ["IN_PROGRESS"] else []) +
    (if status == "NEW" || status == "IN_PROGRESS" then ["RESOLVED", "DISMISSED"] else [])
  }

  /** How far along the review an item is; unknown statuses sit with the terminal ones. */
  function Stage(status: string): nat {
    if status == "NEW" then 0 else if status == "IN_PROGRESS" then 1 else 2
  }

  lemma TransitionTable(status: string)
    ensures OfferedTransitions("NEW") == ["IN_PROGRESS", "RESOLVED", "DISMISSED"]
    ensures OfferedTransitions("IN_PROGRESS") == ["RESOLVED", "DISMISSED"]
    ensures status != "NEW" && status != "IN_PROGRESS" ==> OfferedTransitions(status) == []
  {
  }

  /** Every offered move goes strictly forward, so nothing leads back to NEW, and a
      status reached by a move offers at most the moves of the status it came from. */
  lemma MovesGoForward(status: string, t: string)
    requires t in OfferedTransitions(status)
    ensures Stage(t) > Stage(status)
    ensures t != "NEW"
    ensures forall u :: u in OfferedTransitions(t) ==> u in OfferedTransitions(status)
  {
  }

  /** RESOLVED and DISMISSED are terminal. */
  lemma ResolvedAndDismissedAreTerminal()
    ensures OfferedTransitions("RESOLVED") == [] && OfferedTransitions("DISMISSED") == []
  {
  }

  datatype ModerationFilter = All | NewItems | InProgressItems | ResolvedItems | DismissedItems

  function FilterLiteral(f: ModerationFilter): string {
    match f
    case All => "all"
    case NewItems => "new"
    case InProgressItems => "in_progress"
    case ResolvedItems => "resolved"
    case DismissedItems => "dismissed"
  }

  /** `filterStatus === "all" ? undefined : filterStatus`. */
  function FilterParam(f: ModerationFilter): Option<string> {
    if f == All then None else Some(FilterLiteral(f))
  }

  /** "all" sends no status, every other filter its own literal, and different filters
      never send the same parameter. */
  lemma FilterMapping(f: ModerationFilter, g: ModerationFilter)
    ensures FilterParam(f).None? <==> f == All
    ensures f != All ==> FilterParam(f) == Some(FilterLiteral(f))
    ensures FilterParam(f) == FilterParam(g) ==> f == g
  {
  }
}
