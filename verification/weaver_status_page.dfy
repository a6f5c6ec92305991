/**
 * The weaver status page's progress steps and its redirect. The page reads the
 * reply of the status query and compares positions in a fixed status order.
 */
module WeaverStatusPage {
  import opened Wrappers
  import opened Domain
  import opened Text
  import WeaverRouter

  type StatusReply = WeaverRouter.StatusReply

  const StatusOrder: seq<string> := ["NEW", "UNDER_REVIEW", "APPROVED"]
  const DiscoveryPath := "/associations/discover"

  /** A step is complete when the current status sits at or after it in the order.
      `indexOf` gives -1 for anything outside the order, on either side. */
  function StepCompleted(data: Option<StatusReply>, step: string): bool {
    if data.None? then false
    else IndexOf(StatusOrder, data.value.status) >= IndexOf(StatusOrder, step)
  }

  predicate RedirectsToDiscovery(data: Option<StatusReply>) {
    data.Some? && data.value.status == "APPROVED"
  }

  lemma OrderPositions()
    ensures IndexOf(StatusOrder, "NEW") == 0
    ensures IndexOf(StatusOrder, "UNDER_REVIEW") == 1
    ensures IndexOf(StatusOrder, "APPROVED") == 2
  {
    assert StatusOrder[1..] == ["UNDER_REVIEW", "APPROVED"];
    assert StatusOrder[1..][1..] == ["APPROVED"];
  }

  /** Every position of the order is found at itself. */
  lemma PositionOfStep(i: nat)
    requires i < |StatusOrder|
    ensures IndexOf(StatusOrder, StatusOrder[i]) == i
  {
    OrderPositions();
  }

  lemma NoDataCompletesNothing(step: string)
    ensures !StepCompleted(None, step)
  {
  }

  /** The progress table: NEW completes only the first step, UNDER_REVIEW the first
      two, APPROVED all three. */
  lemma StepTable(createdAt: Option<Time>)
    ensures var d := Some(WeaverRouter.StatusReply("NEW", createdAt));
      StepCompleted(d, "NEW") && !StepCompleted(d, "UNDER_REVIEW") && !StepCompleted(d, "APPROVED")
    ensures var d := Some(WeaverRouter.StatusReply("UNDER_REVIEW", createdAt));
      StepCompleted(d, "NEW") && StepCompleted(d, "UNDER_REVIEW") && !StepCompleted(d, "APPROVED")
    ensures var d := Some(WeaverRouter.StatusReply("APPROVED", createdAt));
      StepCompleted(d, "NEW") && StepCompleted(d, "UNDER_REVIEW") && StepCompleted(d, "APPROVED")
  {
    OrderPositions();
  }

  /** A status outside the order (NOT_APPLIED, say) completes none of the listed steps. */
  lemma UnlistedStatusCompletesNoStep(reply: StatusReply, step: string)
    requires reply.status !in StatusOrder && step in StatusOrder
    ensures !StepCompleted(Some(reply), step)
  {
  }

  /** Both indexes are -1 when neither the status nor the step is in the order, so such a
      step counts as complete. */
  lemma UnlistedStepOfUnlistedStatus(reply: StatusReply, step: string)
    requires reply.status !in StatusOrder && step !in StatusOrder
    ensures StepCompleted(Some(reply), step)
  {
  }

  /** Completion is monotone along the order. */
  lemma CompletionIsMonotone(data: Option<StatusReply>, i: nat, j: nat)
    requires i <= j < |StatusOrder|
    requires StepCompleted(data, StatusOrder[j])
    ensures StepCompleted(data, StatusOrder[i])
  {
    PositionOfStep(i);
    PositionOfStep(j);
  }

  /** The redirect fires exactly on APPROVED, and then every step shows complete. */
  lemma RedirectExactlyWhenApproved(data: Option<StatusReply>)
    ensures RedirectsToDiscovery(data) <==> data.Some? && data.value.status == StatusOrder[2]
    ensures RedirectsToDiscovery(data) ==> forall i :: 0 <= i < |StatusOrder| ==> StepCompleted(data, StatusOrder[i])
  {
    if RedirectsToDiscovery(data) {
      forall i | 0 <= i < |StatusOrder|
        ensures StepCompleted(data, StatusOrder[i])
      {
        PositionOfStep(i);
        PositionOfStep(2);
      }
    }
  }

  /** Against the server's reply: without a profile no step is complete, with one only
      the first is, and the page never redirects because the server never says APPROVED. */
  lemma AgainstServerReply(s: Store, actor: UserId)
    requires WeaversOk(s)
    ensures var d := Some(WeaverRouter.GetApplicationStatus(s, actor));
      && !RedirectsToDiscovery(d)
      && (StepCompleted(d, "NEW") <==> WeaverRouter.HasProfile(s, actor))
      && !StepCompleted(d, "UNDER_REVIEW")
      && !StepCompleted(d, "APPROVED")
  {
    OrderPositions();
    var r := WeaverRouter.GetApplicationStatus(s, actor);
    if !WeaverRouter.HasProfile(s, actor) {
      assert r.status == WeaverRouter.NotApplied;
      assert r.status !in StatusOrder;
    }
  }
}
