/**
 * The edge interceptor: a prefix-matching decision from the request path and
 * the session user's role (absent when there is no session) to exactly one of
 * pass-through, redirect to sign-in, or redirect to the unauthorized page.
 */
module Middleware {
  import opened Wrappers
  import opened Domain
  import opened Text

  datatype Decision = Next | SignIn | Unauthorized

  predicate IsWeaverException(path: string) {
    path == "/weaver/register" || path == "/weaver/apply"
  }

  /** The routes after the two admin blocks; each only turns away anonymous requests. */
  predicate NeedsSession(path: string) {
    || (StartsWith(path, "/weaver") && !IsWeaverException(path))
    || (StartsWith(path, "/association") && !StartsWith(path, "/association/apply")
          && !StartsWith(path, "/admin/association"))
    || StartsWith(path, "/events")
    || StartsWith(path, "/applications")
    || StartsWith(path, "/messages")
    || StartsWith(path, "/settings")
  }

  /** `middleware(request)` as written: the checks run top to bottom and the first redirect wins. */
  function Decide(path: string, user: Option<Role>): Decision {
    if StartsWith(path, "/admin") && user.None? then SignIn
    else if StartsWith(path, "/admin") && user.value != PlatformAdmin then Unauthorized
    else if StartsWith(path, "/admin/association/") && user.None? then SignIn
    else if StartsWith(path, "/admin/association/") && user.value != PlatformAdmin && user.value != AssociationAdmin then Unauthorized
    else if NeedsSession(path) && user.None? then SignIn
    else Next
  }

  /** The same function with the association-admin block deleted. */
  function DecideWithoutAssociationAdminBlock(path: string, user: Option<Role>): Decision {
    if StartsWith(path, "/admin") && user.None? then SignIn
    else if StartsWith(path, "/admin") && user.value != PlatformAdmin then Unauthorized
    else if NeedsSession(path) && user.None? then SignIn
    else Next
  }

  /** Every path the interceptor protects from anonymous requests, stated prefix by prefix. */
  predicate ProtectedFromAnonymous(path: string) {
    || StartsWith(path, "/admin")
    || (StartsWith(path, "/weaver") && !IsWeaverException(path))
    || (StartsWith(path, "/association") && !StartsWith(path, "/association/apply"))
    || StartsWith(path, "/events")
    || StartsWith(path, "/applications")
    || StartsWith(path, "/messages")
    || StartsWith(path, "/settings")
  }

  lemma AssociationAdminPrefixIsAdminPrefix(path: string)
    ensures StartsWith(path, "/admin/association/") ==> StartsWith(path, "/admin")
  {
    if StartsWith(path, "/admin/association/") {
      StartsWithTransitive(path, "/admin/association/", "/admin");
    }
  }

  /** The association-admin block (lines 28-41) never decides anything: deleting it changes no outcome. */
  lemma {:induction false} AssociationAdminBlockIsDead(path: string, user: Option<Role>)
    ensures Decide(path, user) == DecideWithoutAssociationAdminBlock(path, user)
  {
    AssociationAdminPrefixIsAdminPrefix(path);
  }

  /** Any path starting with "/admin" (including "/adminx"): anonymous -> sign-in,
      non-platform-admin -> unauthorized, platform admin -> through. */
  lemma {:induction false} AdminPrefixRule(path: string, user: Option<Role>)
    requires StartsWith(path, "/admin")
    ensures user.None? ==> Decide(path, user) == SignIn
    ensures user.Some? && user.value != PlatformAdmin ==> Decide(path, user) == Unauthorized
    ensures user == Some(PlatformAdmin) ==> Decide(path, user) == Next
  {
    AssociationAdminBlockIsDead(path, user);
  }

  /** With a session the only question is the "/admin" prefix and the platform-admin role. */
  lemma {:induction false} AuthenticatedDecision(path: string, r: Role)
    ensures Decide(path, Some(r)) ==
      (if StartsWith(path, "/admin") && r != PlatformAdmin then Unauthorized else Next)
  {
    AssociationAdminBlockIsDead(path, Some(r));
  }

  /** Hence: a platform admin is never redirected, a session is never sent to sign-in,
      and unauthorized is reserved for "/admin" paths. */
  lemma {:induction false} SessionConsequences(path: string, user: Option<Role>)
    ensures Decide(path, Some(PlatformAdmin)) == Next
    ensures user.Some? ==> Decide(path, user) != SignIn
    ensures Decide(path, user) == Unauthorized ==> StartsWith(path, "/admin") && user.Some?
  {
    AuthenticatedDecision(path, PlatformAdmin);
    if user.Some? {
      AuthenticatedDecision(path, user.value);
    }
  }

  /** Without a session the interceptor sends exactly the protected prefixes to sign-in. */
  lemma {:induction false} AnonymousDecision(path: string)
    ensures Decide(path, None) == (if ProtectedFromAnonymous(path) then SignIn else Next)
  {
    AssociationAdminBlockIsDead(path, None);
    if StartsWith(path, "/association") {
      // "/association" and "/admin/association" differ at index 2, so the exclusion is vacuous.
      StartsWithExclusive(path, "/association", "/admin/association", 2);
    }
  }

  /** Among "/weaver" paths only the two exact public pages let anonymous requests through;
      "/weaver/register/x" and "/weaver/status" do not. */
  lemma {:induction false} WeaverExceptionsAreExact(path: string)
    requires StartsWith(path, "/weaver")
    ensures Decide(path, None) == Next <==> IsWeaverException(path)
  {
    AnonymousDecision(path);
    // Every other protected prefix differs from "/weaver" at index 1.
    StartsWithExclusive(path, "/weaver", "/admin", 1);
    StartsWithExclusive(path, "/weaver", "/association", 1);
    StartsWithExclusive(path, "/weaver", "/events", 1);
    StartsWithExclusive(path, "/weaver", "/applications", 1);
    StartsWithExclusive(path, "/weaver", "/messages", 1);
    StartsWithExclusive(path, "/weaver", "/settings", 1);
  }

  /** Every association admin URL, whatever the association id, turns away only
      anonymous requests: no role is refused there. */
  lemma {:induction false} AssociationAdminUrls(id: string, user: Option<Role>)
    ensures Decide("/association/admin/" + id, user) == (if user.None? then SignIn else Next)
  {
    var path := "/association/admin/" + id;
    assert StartsWith("/association/admin/", "/association/admin");
    StartsWithConcat("/association/admin/", id, "/association/admin");
    StartsWithTransitive(path, "/association/admin", "/association");
    StartsWithExclusive(path, "/association", "/admin", 2);
    StartsWithExclusive(path, "/association", "/admin/association", 2);
    StartsWithExclusive(path, "/association/admin", "/association/apply", 14);
    AssociationAdminPrefixIsAdminPrefix(path);
    assert NeedsSession(path);
  }

  /** The interceptor test suite's admin block, "/admin/dashboard" per role. */
  lemma {:induction false} TestSuiteAdminPaths()
    ensures Decide("/admin/dashboard", None) == SignIn
    ensures Decide("/admin/dashboard", Some(User)) == Unauthorized
    ensures Decide("/admin/dashboard", Some(PlatformAdmin)) == Next
  {
    AdminPrefixRule("/admin/dashboard", None);
    AdminPrefixRule("/admin/dashboard", Some(User));
    AdminPrefixRule("/admin/dashboard", Some(PlatformAdmin));
  }

  /** The suite's association admin block. The regular user on
      "/association/admin/123" passes under the code although the suite expects a
      redirect to the unauthorized page. */
  lemma {:induction false} TestSuiteAssociationPaths()
    ensures Decide("/association/admin/123", None) == SignIn
    ensures Decide("/association/admin/123", Some(User)) == Next
    ensures Decide("/association/admin/123", Some(AssociationAdmin)) == Next
    ensures Decide("/association/admin/123", Some(PlatformAdmin)) == Next
  {
    assert "/association/admin/123" == "/association/admin/" + "123";
    AssociationAdminUrls("123", None);
    AssociationAdminUrls("123", Some(User));
    AssociationAdminUrls("123", Some(AssociationAdmin));
    AssociationAdminUrls("123", Some(PlatformAdmin));
  }

  /** The suite's weaver block: the two public weaver pages and "/weaver/status". */
  lemma {:induction false} TestSuiteWeaverPaths()
    ensures Decide("/weaver/register", None) == Next
    ensures Decide("/weaver/apply", None) == Next
    ensures Decide("/weaver/status", None) == SignIn
    ensures Decide("/weaver/status", Some(User)) == Next
  {
    WeaverExceptionsAreExact("/weaver/register");
    WeaverExceptionsAreExact("/weaver/apply");
    WeaverExceptionsAreExact("/weaver/status");
    AuthenticatedDecision("/weaver/status", User);
  }

  // ---------------------------------------------------------------------------
  // The association-admin block as its comments describe it: association admins
  // reach "/admin/association/..." and the page checks the specific association.
  // ---------------------------------------------------------------------------

  /** Association admins on "/admin/association/..." are turned away by the "/admin" block. */
  lemma {:induction false} AsWrittenRefusesAssociationAdmins(path: string)
    requires StartsWith(path, "/admin/association/")
    ensures Decide(path, Some(AssociationAdmin)) == Unauthorized
    ensures Decide("/admin/association/1", Some(AssociationAdmin)) == Unauthorized
  {
    AssociationAdminPrefixIsAdminPrefix(path);
    AssociationAdminPrefixIsAdminPrefix("/admin/association/1");
  }

  /** The interceptor with the association-admin block consulted before the platform-admin block. */
  function DecideIntended(path: string, user: Option<Role>): (d: Decision)
    ensures StartsWith(path, "/admin/association/") && user == Some(AssociationAdmin) ==> d == Next
    ensures !(StartsWith(path, "/admin/association/") && user == Some(AssociationAdmin)) ==> d == Decide(path, user)
  {
    AssociationAdminPrefixIsAdminPrefix(path);
    if StartsWith(path, "/admin/association/") then
      if user.None? then SignIn
      else if user.value != PlatformAdmin && user.value != AssociationAdmin then Unauthorized
      else Next
    else Decide(path, user)
  }

  /** The corrected interceptor still keeps regular users and anonymous requests out of
      every admin page, and association admins out of the platform pages. */
  lemma {:induction false} IntendedStillGuardsAdminPages(path: string, user: Option<Role>)
    requires StartsWith(path, "/admin")
    ensures user.None? ==> DecideIntended(path, user) == SignIn
    ensures user == Some(User) ==> DecideIntended(path, user) == Unauthorized
    ensures user == Some(AssociationAdmin) ==>
      (DecideIntended(path, user) == Next <==> StartsWith(path, "/admin/association/"))
  {
    AdminPrefixRule(path, user);
  }
}
