/**
 * The server-side guards: each decides, from the session (and for the
 * association guard, the store), whether to redirect to sign-in, redirect to
 * the unauthorized page, or render its children.
 */
module AuthGuard {
  import opened Wrappers
  import opened Domain
  import opened AuthUtils

  datatype GuardOutcome = RedirectSignIn | RedirectUnauthorized | Render

  function AuthGuard(session: Option<Principal>): (g: GuardOutcome)
    ensures g != RedirectUnauthorized
    ensures g == RedirectSignIn <==> session.None?
  {
    if session.None? then RedirectSignIn else Render
  }

  /** Whether the session user holds `requiredRole`, by the role's own check. */
  predicate HasRequiredRole(session: Option<Principal>, requiredRole: Role) {
    match requiredRole
    case PlatformAdmin => IsPlatformAdmin(session)
    case AssociationAdmin => IsAssociationAdmin(session)
    case User => true
  }

  /** Sign-in first, then the role. */
  function RoleGuard(session: Option<Principal>, requiredRole: Role): GuardOutcome {
    if session.None? then RedirectSignIn
    else if !HasRequiredRole(session, requiredRole) then RedirectUnauthorized
    else Render
  }

  /** Resource-scoped: the stored authority over this association, not the session role. */
  function AssociationAdminGuard(s: Store, session: Option<Principal>, associationId: AssociationId): (g: GuardOutcome)
    ensures g == RedirectSignIn <==> session.None?
    ensures session.Some? ==> (g == Render <==> IsAdminOfAssociation(s, Some(session.value.id), associationId))
  {
    if session.None? then RedirectSignIn
    else if !IsAdminOfAssociation(s, Some(session.value.id), associationId) then RedirectUnauthorized
    else Render
  }

  function PlatformAdminGuard(session: Option<Principal>): GuardOutcome {
    RoleGuard(session, PlatformAdmin)
  }

  function AssociationAdminRoleGuard(session: Option<Principal>): GuardOutcome {
    RoleGuard(session, AssociationAdmin)
  }

  /** The role guard admits exactly the sessions whose role is at least the required one. */
  lemma RoleGuardIsRoleOrder(session: Option<Principal>, requiredRole: Role)
    ensures RoleGuard(session, requiredRole) == RedirectSignIn <==> session.None?
    ensures RoleGuard(session, requiredRole) == Render <==>
      session.Some? && Rank(session.value.role) >= Rank(requiredRole)
    ensures requiredRole == User && session.Some? ==> RoleGuard(session, requiredRole) == Render
  {
  }

  /** Whoever passes the platform-admin guard passes the association-admin role guard. */
  lemma PlatformGuardNarrower(session: Option<Principal>)
    ensures PlatformAdminGuard(session) == Render ==> AssociationAdminRoleGuard(session) == Render
    ensures AssociationAdminRoleGuard(session) == RedirectSignIn <==> PlatformAdminGuard(session) == RedirectSignIn
  {
  }

  /** The ASSOCIATION_ADMIN session role is not enough for the association guard:
      a non-platform-admin who neither owns nor administers the association is turned away. */
  lemma SessionRoleDoesNotOpenAssociationGuard(s: Store, p: Principal, associationId: AssociationId)
    requires p.role == AssociationAdmin && StoredRole(s, p.id) != Some(PlatformAdmin)
    requires !OwnsOrAdministers(s, p.id, associationId)
    ensures AssociationAdminGuard(s, Some(p), associationId) == RedirectUnauthorized
    ensures AssociationAdminRoleGuard(Some(p)) == Render
  {
  }
}
