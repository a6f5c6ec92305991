/**
 * The platform-admin procedure that appoints an association admin by email.
 * The role promotion is written before the admin set, and nothing checks that
 * the association exists, so a failed second write leaves the first in place:
 * the outcome carries the store as it is after the call, whatever the reply.
 */
module AdminRouter {
  import opened Wrappers
  import opened Domain
  import opened AuthUtils

  const UserNotFoundByEmail := "User not found with the provided email"

  datatype AssignOutcome = AssignOutcome(store: Store, reply: Result<Association, Error>)

  /** `user.findUnique({ where: { email } })`; email is a unique column. */
  function FindUserByEmail(s: Store, email: string): (r: Option<UserId>)
    requires UsersOk(s)
    ensures r.Some? ==> r.value in s.users && s.users[r.value].email == email
    ensures r.None? ==> forall u :: u in s.users ==> s.users[u].email != email
  {
    if exists u :: u in s.users && s.users[u].email == email then
      var u :| u in s.users && s.users[u].email == email;
      Some(u)
    else None
  }

  /** A role that is neither admin role, i.e. USER, becomes ASSOCIATION_ADMIN;
      the two admin roles are kept. */
  function Promoted(r: Role): (p: Role)
    ensures r == User ==> p == AssociationAdmin
    ensures r != User ==> p == r
  {
    if r == User then AssociationAdmin else r
  }

  /** Reserved to platform admins by the procedure builder. */
  function AssignAssociationAdmin(s: Store, associationId: AssociationId, email: string): (out: AssignOutcome)
    requires UsersOk(s)
    ensures FindUserByEmail(s, email).None? ==>
      out == AssignOutcome(s, Err(Error(NotFound, UserNotFoundByEmail)))
    ensures out.reply.Ok? <==> FindUserByEmail(s, email).Some? && associationId in s.associations
    ensures FindUserByEmail(s, email).Some? ==>
      var u := FindUserByEmail(s, email).value;
      && out.store.users == s.users[u := s.users[u].(role := Promoted(s.users[u].role))]
      && out.store.applications == s.applications && out.store.events == s.events
      && out.store.rsvps == s.rsvps && out.store.checkins == s.checkins && out.store.weavers == s.weavers
      && (associationId !in s.associations ==> out.store.associations == s.associations)
      && (associationId in s.associations ==>
            var a := s.associations[associationId];
            && out.store.associations == s.associations[associationId := a.(admins := a.admins + {u})]
            && out.reply.value == a.(admins := a.admins + {u}))
  {
    match FindUserByEmail(s, email)
    case None => AssignOutcome(s, Err(Error(NotFound, UserNotFoundByEmail)))
    case Some(u) =>
      var account := s.users[u];
      var s1 := if account.role != AssociationAdmin && account.role != PlatformAdmin
        then s.(users := s.users[u := account.(role := AssociationAdmin)])
        else s;
      if associationId !in s1.associations then
        AssignOutcome(s1, Err(Error(InternalServerError, WriteRejected)))
      else
        var a := s1.associations[associationId];
        var a' := a.(admins := a.admins + {u});
        AssignOutcome(s1.(associations := s1.associations[associationId := a']), Ok(a'))
  }

  /** After a successful call the user administers the association, a USER has become
      an ASSOCIATION_ADMIN, and either admin role is kept as it was. */
  lemma {:induction false} AssignGrantsAuthority(s: Store, associationId: AssociationId, email: string)
    requires UsersOk(s) && AssignAssociationAdmin(s, associationId, email).reply.Ok?
    ensures var u := FindUserByEmail(s, email).value;
      var t := AssignAssociationAdmin(s, associationId, email).store;
      && IsAdminOfAssociation(t, Some(u), associationId)
      && (s.users[u].role == User ==> t.users[u].role == AssociationAdmin)
      && (s.users[u].role != User ==> t.users[u].role == s.users[u].role)
      && t.associations[associationId].ownerId == s.associations[associationId].ownerId
  {
    var u := FindUserByEmail(s, email).value;
    assert u != "";
  }

  /** Repeating a successful call changes nothing more. */
  lemma {:induction false} AssignIdempotent(s: Store, associationId: AssociationId, email: string)
    requires UsersOk(s) && AssignAssociationAdmin(s, associationId, email).reply.Ok?
    ensures var t := AssignAssociationAdmin(s, associationId, email).store;
      UsersOk(t) && AssignAssociationAdmin(t, associationId, email).store == t
  {
    var u := FindUserByEmail(s, email).value;
    var t := AssignAssociationAdmin(s, associationId, email).store;
    assert t.users.Keys == s.users.Keys;
    assert forall v :: v in t.users ==> t.users[v].email == s.users[v].email;
    assert UsersOk(t);
    assert FindUserByEmail(t, email) == Some(u);
    assert t.users[u := t.users[u].(role := Promoted(t.users[u].role))] == t.users;
    var a := t.associations[associationId];
    assert a.(admins := a.admins + {u}) == a;
    assert t.associations[associationId := a] == t.associations;
  }

  /** The promotion is written even when the association does not exist. */
  lemma PromotionSurvivesMissingAssociation(s: Store, associationId: AssociationId, email: string)
    requires UsersOk(s) && FindUserByEmail(s, email).Some? && associationId !in s.associations
    requires s.users[FindUserByEmail(s, email).value].role == User
    ensures var out := AssignAssociationAdmin(s, associationId, email);
      && out.reply.Err? && out.reply.error.code == InternalServerError
      && out.store.users[FindUserByEmail(s, email).value].role == AssociationAdmin
  {
  }

  lemma {:induction false} AssignPreservesValid(s: Store, associationId: AssociationId, email: string)
    requires Valid(s)
    ensures Valid(AssignAssociationAdmin(s, associationId, email).store)
  {
    var t := AssignAssociationAdmin(s, associationId, email).store;
    if FindUserByEmail(s, email).Some? {
      assert t.users.Keys == s.users.Keys;
      assert forall v :: v in t.users ==> t.users[v].email == s.users[v].email;
      assert UsersOk(t);
      assert AssociationsOk(t);
    }
  }
}
