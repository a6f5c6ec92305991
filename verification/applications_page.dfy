/**
 * The helpers of the user's applications page: which action a row offers, the
 * badge colour of a status, and the status label. The page sees statuses as
 * the strings the server sends.
 */
module ApplicationsPage {
  import opened Domain
  import opened Text
  import ApplicationRouter

  const Blue := "bg-blue-100 text-blue-800"
  const Yellow := "bg-yellow-100 text-yellow-800"
  const Purple := "bg-purple-100 text-purple-800"
  const Green := "bg-green-100 text-green-800"
  const Red := "bg-red-100 text-red-800"
  const Gray := "bg-gray-100 text-gray-800"

  predicate WithdrawOffered(status: string) {
    status == "NEW" || status == "UNDER_REVIEW"
  }

  predicate ApprovedMarkShown(status: string) {
    status == "APPROVED"
  }

  function BadgeColor(status: string): string {
    if status == "NEW" then Blue
    else if status == "UNDER_REVIEW" then Yellow
    else if status == "INVITED" then Purple
    else if status == "APPROVED" then Green
    else if status == "KICKED" then Red
    else Gray
  }

  /** `status.replace("_", " ")`. */
  function StatusLabel(status: string): string {
    ReplaceFirst(status, '_', ' ')
  }

  /** The page offers withdrawal for exactly the statuses the server lets one withdraw. */
  lemma WithdrawOfferedMatchesServer(st: ApplicationStatus)
    ensures WithdrawOffered(StatusName(st)) <==> ApplicationRouter.Withdrawable(st)
  {
  }

  /** The approved mark appears for APPROVED only and never beside the withdraw button. */
  lemma ActionsAreExclusive(st: ApplicationStatus, status: string)
    ensures !(WithdrawOffered(status) && ApprovedMarkShown(status))
    ensures ApprovedMarkShown(StatusName(st)) <==> st == Approved
  {
  }

  /** Every status gets a colour; REJECTED, SELFIMMOLATE and unknown strings all share gray,
      and each of the five coloured statuses has a colour of its own. */
  lemma BadgeColors(status: string)
    ensures status !in {"NEW", "UNDER_REVIEW", "INVITED", "APPROVED", "KICKED"} ==> BadgeColor(status) == Gray
    ensures BadgeColor(StatusName(Rejected)) == Gray && BadgeColor(StatusName(SelfImmolate)) == Gray
    ensures status in {"NEW", "UNDER_REVIEW", "INVITED", "APPROVED", "KICKED"} ==> BadgeColor(status) != Gray
    ensures forall t :: t in {"NEW", "UNDER_REVIEW", "INVITED", "APPROVED", "KICKED"} && BadgeColor(t) == BadgeColor(status) ==> t == status
  {
  }

  /** Only the first underscore becomes a space; a later one survives. */
  lemma {:induction false} LabelReplacesFirstUnderscore(status: string, k: nat)
    requires k < |status| && status[k] == '_' && '_' !in status[..k]
    ensures StatusLabel(status) == status[..k] + " " + status[k + 1..]
    ensures Count(StatusLabel(status), '_') == Count(status, '_') - 1
  {
    ReplaceFirstAt(status, '_', ' ', k);
    ReplaceFirstRemovesOne(status, '_', ' ');
  }

  /** Whatever follows the first underscore, later underscores included, is shown as is. */
  lemma LabelKeepsTail(p: string, q: string)
    requires '_' !in p
    ensures StatusLabel(p + "_" + q) == p + " " + q
  {
    ReplaceFirstConcat(p, q, '_', ' ');
  }
}
