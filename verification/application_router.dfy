/**
 * The application router: a user's own applications, newest first, and
 * withdrawal of a pending application, which deletes the row.
 */
module ApplicationRouter {
  import opened Wrappers
  import opened Domain
  import opened AuthUtils
  import Sorting

  const ApplicationNotFound := "Application not found"
  const OnlyOwnApplications := "You can only withdraw your own applications"
  const CannotWithdraw := "This application cannot be withdrawn"

  /** The statuses from which the applicant may still withdraw. */
  predicate Withdrawable(st: ApplicationStatus) {
    st == New || st == UnderReview
  }

  function CreatedAt(row: (ApplicationId, Application)): int {
    row.1.createdAt
  }

  /** `getUserApplications`: exactly the caller's rows, newest first. */
  method GetUserApplications(s: Store, actor: UserId) returns (rows: seq<(ApplicationId, Application)>)
    ensures forall row :: row in rows <==>
      row.0 in s.applications && row.1 == s.applications[row.0] && row.1.userId == actor
    ensures |rows| == |set id | id in s.applications && s.applications[id].userId == actor|
    ensures Sorting.SortedDesc(rows, CreatedAt)
  {
    var keep := (id: ApplicationId, app: Application) => app.userId == actor;
    var found := Sorting.Collect(s.applications, keep);
    rows := Sorting.SortDesc(found, CreatedAt);
    forall row
      ensures row in rows <==> row.0 in s.applications && row.1 == s.applications[row.0] && keep(row.0, row.1)
    {
      Sorting.SameElements(rows, found, row);
      if row.0 in s.applications && row.1 == s.applications[row.0] && keep(row.0, row.1) {
        assert (row.0, s.applications[row.0]) in found;
      }
    }
    assert Sorting.Selected(s.applications, keep) == set id | id in s.applications && s.applications[id].userId == actor;
  }

  /** `withdrawApplication`: existence, then ownership, then status; success deletes the row. */
  function Withdraw(s: Store, actor: UserId, id: ApplicationId): (r: Result<(Store, Application), Error>)
    ensures id !in s.applications ==> r == Err(Error(NotFound, ApplicationNotFound))
    ensures id in s.applications && s.applications[id].userId != actor ==>
      r == Err(Error(Forbidden, OnlyOwnApplications))
    ensures id in s.applications && s.applications[id].userId == actor && !Withdrawable(s.applications[id].status) ==>
      r == Err(Error(BadRequest, CannotWithdraw))
    ensures r.Ok? <==>
      id in s.applications && s.applications[id].userId == actor && Withdrawable(s.applications[id].status)
    ensures r.Ok? ==>
      && r.value.1 == s.applications[id]
      && r.value.0 == s.(applications := s.applications - {id})
      && r.value.0.applications.Keys == s.applications.Keys - {id}
  {
    if id !in s.applications then Err(Error(NotFound, ApplicationNotFound))
    else
      var app := s.applications[id];
      if app.userId != actor then Err(Error(Forbidden, OnlyOwnApplications))
      else if app.status != New && app.status != UnderReview then Err(Error(BadRequest, CannotWithdraw))
      else Ok((s.(applications := s.applications - {id}), app))
  }

  /** Every status outside NEW and UNDER_REVIEW is refused. */
  lemma WithdrawRefusedStatuses(s: Store, actor: UserId, id: ApplicationId)
    requires id in s.applications && s.applications[id].userId == actor
    requires s.applications[id].status in {Approved, Rejected, Kicked, SelfImmolate, Invited}
    ensures Withdraw(s, actor, id).Err? && Withdraw(s, actor, id).error.code == BadRequest
  {
  }

  /** Withdrawal never changes anyone's membership of any association: the deleted
      row is never APPROVED, and owners and admins are untouched. */
  lemma {:induction false} WithdrawKeepsMembership(s: Store, actor: UserId, id: ApplicationId, u: UserId, a: AssociationId)
    requires Withdraw(s, actor, id).Ok?
    ensures var t := Withdraw(s, actor, id).value.0;
      && IsAdminOfAssociation(t, Some(u), a) == IsAdminOfAssociation(s, Some(u), a)
      && IsAssociationMember(t, Some(u), a) == IsAssociationMember(s, Some(u), a)
  {
    var t := Withdraw(s, actor, id).value.0;
    if HasApprovedApplication(s, u, a) {
      var k :| k in s.applications && Qualifies(s.applications[k], u, a);
      assert k != id;
      assert k in t.applications && t.applications[k] == s.applications[k];
    }
    if HasApprovedApplication(t, u, a) {
      var k :| k in t.applications && Qualifies(t.applications[k], u, a);
      assert k in s.applications && s.applications[k] == t.applications[k];
    }
  }

  lemma WithdrawPreservesValid(s: Store, actor: UserId, id: ApplicationId)
    requires Valid(s) && Withdraw(s, actor, id).Ok?
    ensures Valid(Withdraw(s, actor, id).value.0)
  {
  }
}
