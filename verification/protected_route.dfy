/**
 * The client-side route guard. Its effect runs when the session changes and
 * either waits, navigates, or marks the route authorized; its render shows
 * the loading placeholder until the route is authorized. The `authorized`
 * flag starts false and is only ever set to true.
 */
module ProtectedRoute {
  import opened Wrappers
  import opened Domain
  import opened AuthUtils
  import AuthGuard

  datatype SessionStatus = Loading | Authenticated | Unauthenticated

  datatype Effect = Wait | Push(target: string) | Authorize

  datatype View = LoadingView | Children

  const SignInPath := "/api/auth/signin"
  const UnauthorizedPath := "/unauthorized"

  /** The effect body: nothing while loading, sign-in without a session, then the role switch. */
  function CheckEffect(status: SessionStatus, session: Option<Principal>, requiredRole: Option<Role>): Effect {
    if status == Loading then Wait
    else if session.None? then Push(SignInPath)
    else if requiredRole.Some? && requiredRole.value == PlatformAdmin && !IsPlatformAdmin(session) then Push(UnauthorizedPath)
    else if requiredRole.Some? && requiredRole.value == AssociationAdmin && !IsAssociationAdmin(session) then Push(UnauthorizedPath)
    else Authorize
  }

  function RenderView(status: SessionStatus, authorized: bool): View {
    if status == Loading || !authorized then LoadingView else Children
  }

  /** The state after the effect has run, and what is then on screen. */
  datatype Settled = Settled(navigation: Option<string>, authorized: bool, view: View)

  function Settle(authorized: bool, status: SessionStatus, session: Option<Principal>, requiredRole: Option<Role>): (r: Settled)
    ensures r.authorized <==> authorized || CheckEffect(status, session, requiredRole) == Authorize
    ensures r.view == Children ==> status != Loading && r.authorized
    ensures r.navigation.Some? <==> CheckEffect(status, session, requiredRole).Push?
  {
    var e := CheckEffect(status, session, requiredRole);
    var authorized' := authorized || e == Authorize;
    Settled(if e.Push? then Some(e.target) else None, authorized', RenderView(status, authorized'))
  }

  /** From a fresh mount the guard renders its children exactly when the session is
      loaded and present and its role is at least the required one; otherwise it
      navigates to sign-in without a session, to the unauthorized page for a too-low
      role, and nowhere while loading. */
  lemma FreshMount(status: SessionStatus, session: Option<Principal>, requiredRole: Option<Role>)
    ensures var r := Settle(false, status, session, requiredRole);
      && (status == Loading ==> r.navigation.None? && r.view == LoadingView)
      && (status != Loading && session.None? ==> r.navigation == Some(SignInPath) && r.view == LoadingView)
      && (status != Loading && session.Some? ==>
            (r.view == Children <==> requiredRole.None? || Rank(session.value.role) >= Rank(requiredRole.value)))
      && (status != Loading && session.Some? && r.view == LoadingView ==> r.navigation == Some(UnauthorizedPath))
  {
  }

  /** The flag is sticky: once authorized, losing the session navigates to sign-in
      while the children stay rendered until the navigation completes. */
  lemma AuthorizationIsSticky(session: Option<Principal>, requiredRole: Option<Role>)
    ensures var r := Settle(true, Unauthenticated, None, requiredRole);
      r.navigation == Some(SignInPath) && r.view == Children
  {
  }

  function PlatformAdminRoute(authorized: bool, status: SessionStatus, session: Option<Principal>): Settled {
    Settle(authorized, status, session, Some(PlatformAdmin))
  }

  function AssociationAdminRoute(authorized: bool, status: SessionStatus, session: Option<Principal>): Settled {
    Settle(authorized, status, session, Some(AssociationAdmin))
  }

  function AuthenticatedRoute(authorized: bool, status: SessionStatus, session: Option<Principal>): Settled {
    Settle(authorized, status, session, None)
  }

  /** The guard's test suite, on fresh mounts. */
  lemma TestSuiteCases(p: Principal)
    ensures Settle(false, Loading, Some(p), None) == Settled(None, false, LoadingView)
    ensures Settle(false, Unauthenticated, None, None) == Settled(Some(SignInPath), false, LoadingView)
    ensures AuthenticatedRoute(false, Authenticated, Some(p)).view == Children
    ensures p.role != PlatformAdmin ==>
      PlatformAdminRoute(false, Authenticated, Some(p)) == Settled(Some(UnauthorizedPath), false, LoadingView)
    ensures p.role == PlatformAdmin ==> PlatformAdminRoute(false, Authenticated, Some(p)).view == Children
    ensures p.role != User ==> AssociationAdminRoute(false, Authenticated, Some(p)).view == Children
    ensures p.role == User ==>
      AssociationAdminRoute(false, Authenticated, Some(p)) == Settled(Some(UnauthorizedPath), false, LoadingView)
  {
  }

  /** The client guard mirrors the server role guard on a loaded session. */
  lemma MirrorsServerRoleGuard(session: Option<Principal>, requiredRole: Role)
    ensures (CheckEffect(Authenticated, session, Some(requiredRole)) == Authorize) <==>
            (AuthGuard.RoleGuard(session, requiredRole) == AuthGuard.Render)
    ensures (CheckEffect(Authenticated, session, Some(requiredRole)) == Push(SignInPath)) <==>
            (AuthGuard.RoleGuard(session, requiredRole) == AuthGuard.RedirectSignIn)
  {
  }
}
