# Authorization and membership core of bw2

bw2 is a web platform of local associations. Users ("weavers") apply to
associations and attend their events. Association owners and appointed admins
run the associations, and platform admins run the platform. This project
models in Dafny the part of the system that decides who may do what:

- **Role and resource predicates** (`AuthUtils`). These are the flat session
  role checks, `isPlatformAdmin` and `isAssociationAdmin`. Next to them are the
  resource-scoped checks `isAdminOfAssociation`, `isAssociationMember`,
  `canManageEvent` and `canAttendEvent`. The resource-scoped checks read the
  stored role and an immutable store of maps that stands for the database.
- **The request interceptor** (`Middleware`). It maps a path and a session role
  to next, sign-in or unauthorized.
- **The API handlers** of the event, association, application, admin
  (`assignAssociationAdmin` only) and weaver routers. Each is a total function
  or method from a store, an actor and an input. Most return `Ok(new store,
  reply)` or `Err(Error(code, message))`, with three exceptions:
  - the read-only `ApplicationRouter.GetUserApplications` returns the rows
    themselves;
  - `WeaverRouter.GetApplicationStatus` returns a status reply;
  - `AdminRouter.AssignAssociationAdmin` returns the store after the call
    together with the reply, because its first write persists when the second
    fails.

  The tRPC error codes and messages are kept, so the order of the checks is
  observable.
- **The server guards** (`AuthGuard`) and **the client route guard**
  (`ProtectedRoute`). The client guard is modelled as its effect plus its
  render, with the sticky `authorized` flag.
- **The small decision helpers of four pages**:
  - the weaver status steps (`WeaverStatusPage`);
  - the applications table actions, badges and labels (`ApplicationsPage`);
  - the moderation actions and filter (`ModerationPage`);
  - the dashboard sort state machine, buttons and filters (`AdminDashboardPage`).

`Domain.Valid` is the referential integrity the database enforces: foreign
keys, the unique email, the unique weaver `userId`, and the compound
(eventId, userId) keys of RSVPs and check-ins. It adds one modelling
assumption that no database constraint expresses: no stored user has the
empty id (`Domain.NoEmptyUserId`). Generated ids are never empty, and this is
what makes the handlers' JavaScript-falsy `userId` checks agree with the stored
users. `AssociationRouter.AddAdminEffect`, `AssociationRouter.OwnerIsAdminFromCreation`
and the preservation lemmas rely on it. Every writing handler is proved to
preserve `Domain.Valid`.

The modelling follows these rules:

- **Database writes.**
  - A write the database would reject (a missing row, a foreign key, or a
    generated id that is already taken) becomes `InternalServerError` with the
    message `Domain.WriteRejected`. This is what tRPC does with an unknown error.
  - A field the source passes as `undefined` to an update is left unchanged.
- **Input validation.** A zod bound that fails becomes `BadRequest` with
  `Domain.InvalidInput`. The bounds are a guest count of at least 0, a
  population limit of at least 1, and a non-empty weaver location. The check
  happens before the handler body.
- **Parameters.** Generated ids and the current time are parameters.
- **Truthiness.** JavaScript truthiness is explicit: `Domain.Present` and
  `Domain.Truthy` treat `undefined` and `""` alike.

Where the tests and the code disagree, the code is modelled.
src/middleware.test.ts:93-105 expects a regular user on
`/association/admin/123` to be redirected to the unauthorized page. The code
lets that request through. It starts with `/association`, and the only role
checks are in the two `/admin…` blocks. `Middleware.TestSuiteAssociationPaths`
states what the code does, and `Middleware.AssociationAdminUrls` generalises it
to every association id. The other three cases of that test group agree with the code.

## Model

| member | source | states |
|---|---|---|
| AuthUtils.PlatformAdminIsTopRank | src/lib/auth-utils.ts:8-11 | isPlatformAdmin holds exactly for a present user of the top rank; an absent user fails |
| AuthUtils.AssociationAdminIsAtLeastRank | src/lib/auth-utils.ts:16-19 | isAssociationAdmin holds exactly for a present user whose role is at least ASSOCIATION_ADMIN |
| AuthUtils.PlatformAdminIsAssociationAdmin | src/lib/auth-utils.ts:8-19 | every platform admin passes the association-admin check |
| AuthUtils.AbsentUserIsNeverAdmin | src/lib/auth-utils.ts:28 | an undefined, null or empty user id is neither admin nor member of any association |
| AuthUtils.PlatformAdminBypass | src/lib/auth-utils.ts:31-38 | a stored PLATFORM_ADMIN administers, and is a member of, every association id, even a nonexistent one |
| AuthUtils.NonPlatformAdminAuthority | src/lib/auth-utils.ts:40-51 | for anyone else, authority over an association is exactly: it exists and they own it or are in its admins; never for a missing association |
| AuthUtils.RoleBelowPlatformIsIrrelevant | src/lib/auth-utils.ts:36-51 | changing a stored role between USER and ASSOCIATION_ADMIN changes no resource-scoped authority or membership of anyone |
| AuthUtils.MembershipCharacterization | src/lib/auth-utils.ts:57-77 | membership is admin authority or some row of that user and association with status APPROVED and approved set |
| AuthUtils.AdminIsMember | src/lib/auth-utils.ts:63-65 | admin authority implies membership |
| AuthUtils.ApprovedStatusWithoutFlagIsNotMembership | src/lib/auth-utils.ts:68-75 | without admin authority, a user none of whose application rows for the association has the approved flag is no member, even with APPROVED rows |
| AuthUtils.MembershipDependsOnOwnRows | src/lib/auth-utils.ts:57-77 | two stores with the same users, associations and rows of a pair agree on that pair's membership |
| AuthUtils.EventChecksReduceToAssociation | src/lib/auth-utils.ts:83-120 | both event checks fail for a missing event and otherwise equal the owning association's admin and member checks |
| AuthUtils.ManageImpliesAttend | src/lib/auth-utils.ts:83-120 | whoever can manage an event can attend it |
| AuthUtils.AuthorityImpliesStoredUser | src/lib/auth-utils.ts:24-77 | in a consistent store every member (hence every admin) of an association is a stored user |
| Middleware.AssociationAdminPrefixIsAdminPrefix | src/middleware.ts:15-28 | every "/admin/association/" path is also an "/admin" path |
| Middleware.AssociationAdminBlockIsDead | src/middleware.ts:27-41 | deleting the association-admin block changes no decision for any path and role |
| Middleware.AdminPrefixRule | src/middleware.ts:15-25 | on any "/admin" path: anonymous goes to sign-in, a non-platform-admin to unauthorized, a platform admin passes |
| Middleware.AuthenticatedDecision | src/middleware.ts:9-103 | an authenticated user is refused only on "/admin" paths without the platform-admin role; every other request passes |
| Middleware.SessionConsequences | src/middleware.ts:9-103 | the interceptor never yields unauthorized without a session and never yields sign-in with one |
| Middleware.AnonymousDecision | src/middleware.ts:44-101 | an anonymous request is sent to sign-in exactly on the protected prefixes, "/association/apply" excepted, and passes elsewhere |
| Middleware.WeaverExceptionsAreExact | src/middleware.ts:44-53 | of the "/weaver" paths, exactly "/weaver/register" and "/weaver/apply" pass anonymously; "/weaver/register/x" does not |
| Middleware.AssociationAdminUrls | src/middleware.ts:14-103 | on "/association/admin/" followed by any id, an anonymous request goes to sign-in and every role passes |
| Middleware.TestSuiteAdminPaths | src/middleware.test.ts:39-78 | "/admin/dashboard": anonymous to sign-in, the regular user to the unauthorized page, the platform admin through |
| Middleware.TestSuiteAssociationPaths | src/middleware.test.ts:80-132 | "/association/admin/123": anonymous to sign-in and every role through, the regular user included, whom the suite expects to be refused |
| Middleware.TestSuiteWeaverPaths | src/middleware.test.ts:134-181 | "/weaver/register" and "/weaver/apply" pass anonymously, "/weaver/status" sends anonymous requests to sign-in and lets a signed-in user through |
| Middleware.AsWrittenRefusesAssociationAdmins | src/middleware.ts:15-41 | an association admin on any "/admin/association/" page is redirected to unauthorized |
| Middleware.DecideIntended | src/middleware.ts:27-41 | the corrected interceptor admits association admins on "/admin/association/" and agrees with the written one everywhere else |
| Middleware.IntendedStillGuardsAdminPages | src/middleware.ts:15-41 | the corrected interceptor still sends anonymous requests to sign-in and regular users to unauthorized on every "/admin" page, and admits association admins only under "/admin/association/" |
| EventRouter.GetById | src/server/api/routers/event.ts:16-48 | succeeds exactly when the caller can attend; returns the stored event and the caller's own RSVP if one exists; otherwise FORBIDDEN |
| EventRouter.MissingEventIsForbidden | src/server/api/routers/event.ts:16-43 | a nonexistent event id is reported FORBIDDEN, never NOT_FOUND |
| EventRouter.CreateRsvp | src/server/api/routers/event.ts:53-91 | a negative guest count is a bad request; success exactly for an attendee; the row under (event, caller) is replaced and no other row changes; an omitted comment keeps the old one |
| EventRouter.CreateRsvpIdempotent | src/server/api/routers/event.ts:71-91 | a repeated identical RSVP at the same instant leaves the store as the first one left it |
| EventRouter.CreateRsvpPreservesValid | src/server/api/routers/event.ts:71-91 | a successful RSVP keeps the store consistent |
| EventRouter.Create | src/server/api/routers/event.ts:107-128 | FORBIDDEN unless the caller administers the input association; on success the new event belongs to that association and carries every input field as given, the arrival rule defaulting to ON_TIME |
| EventRouter.CreatorManagesEvent | src/server/api/routers/event.ts:107-128 | whoever created an event can manage it |
| EventRouter.CreatePreservesValid | src/server/api/routers/event.ts:117-128 | event creation keeps the store consistent |
| EventRouter.Update | src/server/api/routers/event.ts:144-165 | success exactly for a manager; never changes the association; name and location change only for truthy input; date, arrival time and arrival rule change only when given; description and ticket link change whenever given, even as "", and are kept when undefined |
| EventRouter.EmptyUpdateChangesNothing | src/server/api/routers/event.ts:154-165 | an update whose name and location are blank and whose every other field is undefined leaves the store as it was |
| EventRouter.UpdateIdempotent | src/server/api/routers/event.ts:154-165 | applying the same update twice equals applying it once |
| EventRouter.UpdatePreservesValid | src/server/api/routers/event.ts:154-165 | an event update keeps the store consistent |
| EventRouter.GetRsvps | src/server/api/routers/event.ts:172-195 | success exactly for a manager; lists exactly the RSVPs of that event, once each, most recent response first |
| EventRouter.CheckInUser | src/server/api/routers/event.ts:206-245 | first FORBIDDEN unless the caller manages the event, then FORBIDDEN with its own message unless the subject can attend; success writes only the (event, subject) check-in, recording the caller |
| EventRouter.CheckInUserPreservesValid | src/server/api/routers/event.ts:227-245 | a check-in keeps the store consistent |
| AssociationRouter.GetPublicById | src/server/api/routers/association.ts:13-31 | NOT_FOUND exactly for a missing id; otherwise the id, location, population and limit of the stored row, with no membership check |
| AssociationRouter.GetById | src/server/api/routers/association.ts:34-62 | FORBIDDEN for a non-member, then NOT_FOUND; on success the stored row with exactly its events dated from now on, each once, earliest first |
| AssociationRouter.GetByIdNotFoundOnlyForPlatformAdmins | src/server/api/routers/association.ts:38-59 | in a consistent store a missing association passes the membership check only for a stored platform admin |
| AssociationRouter.GetMembers | src/server/api/routers/association.ts:65-97 | success exactly for an admin of the association; lists exactly the users of its APPROVED, approved rows, each user once per such row of theirs |
| AssociationRouter.ListedUsersAreMembers | src/server/api/routers/association.ts:78-97 | every listed user is a member of the association |
| AssociationRouter.Update | src/server/api/routers/association.ts:101-124 | a limit below 1 is a bad request; FORBIDDEN for a non-admin; a missing association is a rejected write; only a truthy location and a given limit change |
| AssociationRouter.UpdateKeepsAuthority | src/server/api/routers/association.ts:118-124 | an association update changes no admin or membership decision |
| AssociationRouter.UpdatePreservesValid | src/server/api/routers/association.ts:118-124 | an association update keeps the store consistent |
| AssociationRouter.AddAdmin | src/server/api/routers/association.ts:128-160 | NOT_FOUND before FORBIDDEN; succeeds only for the owner or a session platform admin and a stored target; on success the admins gain exactly the target |
| AssociationRouter.AppointedAdminCannotAppoint | src/server/api/routers/association.ts:142-151 | an appointed admin who is neither owner nor session platform admin is refused with FORBIDDEN |
| AssociationRouter.AddAdminEffect | src/server/api/routers/association.ts:153-160 | afterwards the target administers the association, the owner is unchanged, a repeat changes nothing, and the store stays consistent |
| AssociationRouter.Create | src/server/api/routers/association.ts:164-181 | a limit below 1 is a bad request; on success the new association has the input owner, location and limit, and its admins are exactly the owner |
| AssociationRouter.OwnerIsAdminFromCreation | src/server/api/routers/association.ts:171-181 | the owner of a new association administers it and is a member from creation, and the store stays consistent |
| ApplicationRouter.GetUserApplications | src/server/api/routers/application.ts:10-23 | exactly the caller's rows, once each, newest first |
| ApplicationRouter.Withdraw | src/server/api/routers/application.ts:27-57 | NOT_FOUND, then FORBIDDEN for another user's row, then BAD_REQUEST outside NEW and UNDER_REVIEW; success deletes exactly that row |
| ApplicationRouter.WithdrawRefusedStatuses | src/server/api/routers/application.ts:47-52 | APPROVED, REJECTED, KICKED, SELFIMMOLATE and INVITED rows cannot be withdrawn |
| ApplicationRouter.WithdrawKeepsMembership | src/server/api/routers/application.ts:47-57 | a withdrawal changes no one's membership of any association |
| ApplicationRouter.WithdrawPreservesValid | src/server/api/routers/application.ts:54-57 | a withdrawal keeps the store consistent |
| AdminRouter.FindUserByEmail | src/server/api/routers/admin.ts:470-472 | finds the stored user with that email, or reports that none has it |
| AdminRouter.Promoted | src/server/api/routers/admin.ts:481-487 | a USER is promoted to ASSOCIATION_ADMIN, and either admin role is kept as it was |
| AdminRouter.AssignAssociationAdmin | src/server/api/routers/admin.ts:463-498 | NOT_FOUND with no change for an unknown email; otherwise the user is promoted even when the association is missing; success exactly when the association exists; only that user's role and that admin set change |
| AdminRouter.AssignGrantsAuthority | src/server/api/routers/admin.ts:481-497 | after success the user administers the association; a USER has become ASSOCIATION_ADMIN and an admin role is unchanged, so a platform admin is not demoted |
| AdminRouter.AssignIdempotent | src/server/api/routers/admin.ts:481-497 | repeating a successful assignment changes nothing more |
| AdminRouter.PromotionSurvivesMissingAssociation | src/server/api/routers/admin.ts:482-497 | with a missing association the call fails but the USER is left promoted |
| AdminRouter.AssignPreservesValid | src/server/api/routers/admin.ts:482-497 | the assignment keeps the store consistent, whatever its reply |
| WeaverRouter.ApplyToBeWeaver | src/server/api/routers/weaver.ts:19-46 | an empty location is a bad request; a second application fails; otherwise exactly one profile with the caller and location is added |
| WeaverRouter.ApplyPreservesValid | src/server/api/routers/weaver.ts:27-45 | a successful application keeps the store consistent and leaves the caller with a profile |
| WeaverRouter.OneProfilePerUser | src/server/api/routers/weaver.ts:27-43 | after any sequence of applications the store is consistent, with at most one profile per user |
| WeaverRouter.GetApplicationStatus | src/server/api/routers/weaver.ts:48-64 | NOT_APPLIED exactly without a profile; otherwise NEW with the profile's creation time |
| AuthGuard.AuthGuard | src/components/auth/auth-guard.tsx:22-30 | sign-in exactly without a session user, never unauthorized |
| AuthGuard.RoleGuardIsRoleOrder | src/components/auth/auth-guard.tsx:35-62 | sign-in exactly without a session; renders exactly when the session role is at least the required one; USER always renders |
| AuthGuard.AssociationAdminGuard | src/components/auth/auth-guard.tsx:67-81 | sign-in exactly without a session; otherwise renders exactly when the user administers that association |
| AuthGuard.PlatformGuardNarrower | src/components/auth/auth-guard.tsx:86-92 | whoever passes the platform-admin guard passes the association-admin role guard, and both send the same requests to sign-in |
| AuthGuard.SessionRoleDoesNotOpenAssociationGuard | src/components/auth/auth-guard.tsx:67-92 | an ASSOCIATION_ADMIN session that passes the role guard is still refused by the association guard when not owner or admin |
| ProtectedRoute.Settle | src/components/auth/protected-route.tsx:27-67 | the route is authorized once the effect authorizes it and stays so; children show only when loaded and authorized; it navigates exactly when the effect pushes |
| ProtectedRoute.FreshMount | src/components/auth/protected-route.tsx:27-67 | loading waits; no session goes to sign-in; otherwise children render exactly when the role is at least the required one, else unauthorized |
| ProtectedRoute.AuthorizationIsSticky | src/components/auth/protected-route.tsx:25-64 | once authorized, losing the session navigates to sign-in while the children stay rendered |
| ProtectedRoute.TestSuiteCases | src/components/auth/protected-route.test.tsx:25-210 | the suite's cases, including the three wrapper components |
| ProtectedRoute.MirrorsServerRoleGuard | src/components/auth/protected-route.tsx:37-58 | on a loaded session the client guard authorizes and sends to sign-in exactly when the server role guard does |
| WeaverStatusPage.NoDataCompletesNothing | src/app/weaver/status/page.tsx:21 | without data no step is complete |
| WeaverStatusPage.StepTable | src/app/weaver/status/page.tsx:20-28 | NEW completes only the first step, UNDER_REVIEW the first two, APPROVED all three |
| WeaverStatusPage.UnlistedStatusCompletesNoStep | src/app/weaver/status/page.tsx:23-27 | a status outside the order completes none of the listed steps |
| WeaverStatusPage.UnlistedStepOfUnlistedStatus | src/app/weaver/status/page.tsx:24-27 | an unlisted step of an unlisted status counts as complete, both indexes being -1 |
| WeaverStatusPage.CompletionIsMonotone | src/app/weaver/status/page.tsx:23-27 | a complete step implies every earlier step is complete |
| WeaverStatusPage.RedirectExactlyWhenApproved | src/app/weaver/status/page.tsx:13-18 | the page redirects exactly on APPROVED, and then every step shows complete |
| WeaverStatusPage.AgainstServerReply | src/server/api/routers/weaver.ts:48-64 | against the server's reply the first step is complete exactly with a profile, the others never, and the page never redirects |
| ApplicationsPage.WithdrawOfferedMatchesServer | src/app/applications/page.tsx:75 | the page offers withdrawal for exactly the statuses the server lets one withdraw |
| ApplicationsPage.ActionsAreExclusive | src/app/applications/page.tsx:75-86 | the approved mark shows exactly for APPROVED and never beside the withdraw button |
| ApplicationsPage.BadgeColors | src/app/applications/page.tsx:23-33 | REJECTED, SELFIMMOLATE and unknown statuses are gray; the five named statuses each have a colour of their own |
| ApplicationsPage.LabelReplacesFirstUnderscore | src/app/applications/page.tsx:71 | the label equals the status with its first underscore made a space, and keeps one underscore fewer |
| ApplicationsPage.LabelKeepsTail | src/app/applications/page.tsx:71 | whatever follows the first underscore, later underscores included, is shown as is after a space |
| ModerationPage.TransitionTable | src/app/admin/moderation/page.tsx:163-187 | NEW offers start-review, resolve and dismiss; IN_PROGRESS resolve and dismiss; any other status nothing |
| ModerationPage.MovesGoForward | src/app/admin/moderation/page.tsx:163-187 | every offered move goes strictly forward, none leads to NEW, and the target offers no move the source did not |
| ModerationPage.ResolvedAndDismissedAreTerminal | src/app/admin/moderation/page.tsx:163-187 | RESOLVED and DISMISSED offer no move |
| ModerationPage.FilterMapping | src/app/admin/moderation/page.tsx:17 | "all" sends no status, every other filter its own literal, and different filters send different parameters |
| AdminDashboardPage.SortClick | src/app/admin/page.tsx:70-79 | after a click the sort field is the clicked one; the same field flips the order, a new one starts descending |
| AdminDashboardPage.DoubleClickRestoresOrder | src/app/admin/page.tsx:70-79 | two clicks on the current field restore the state; on a new field they end ascending |
| AdminDashboardPage.EveryStateReachable | src/app/admin/page.tsx:13-14 | every sort state is reachable from the initial date-descending state in at most two clicks |
| AdminDashboardPage.ButtonsNeverBothDisabled | src/app/admin/page.tsx:313-320 | approve and reject are never both disabled, and both are enabled outside APPROVED and REJECTED |
| AdminDashboardPage.BuildQuery | src/app/admin/page.tsx:21-26 | the status parameter is absent exactly for "all" and is otherwise the filter's literal, the location is absent exactly when empty, and the current sort field and order are sent |
| AdminDashboardPage.FilterMapping | src/app/admin/page.tsx:21-26 | "all" and the empty location send nothing, other values go through unchanged, and different filters send different parameters |
| Scenarios.FixtureIsValid | scripts/test-auth.ts:58-149 | the seeded world is a consistent store |
| Scenarios.FixtureAuthority | scripts/test-auth.ts:58-149 | in the seeded world both admins administer the association, the regular user is a member who cannot manage the event, and no one absent can attend |
| Scenarios.FixtureAdminUrls | scripts/test-auth.ts:165-167 | of the printed admin URLs, "/admin" refuses the regular user and the association admin and admits the platform admin |
| Scenarios.FixtureMemberUrls | scripts/test-auth.ts:162-168 | "/weaver/register" passes anonymously and the regular user passes the interceptor on the fixture association's admin URL |
| Scenarios.FixtureHandlers | scripts/test-auth.ts:58-149 | the regular user may RSVP, the owner may appoint them admin so that they then manage the event, and the approved application cannot be withdrawn |
| Scenarios.KickRevokesMembership | src/lib/auth-utils.ts:57-77 | kicking a non-admin's only qualifying row ends their membership |
| Scenarios.FixtureKick | scripts/test-auth.ts:111-130 | once the seeded application is kicked the regular user can no longer RSVP |
| Text.ReplaceFirst | src/app/applications/page.tsx:71 | the label keeps the length and every character except an underscore, and is the status itself when there is none |
| Text.IndexOf | src/app/weaver/status/page.tsx:24-25 | -1 exactly when absent, otherwise the first index holding the value |

## Findings

| source | as written | input that shows it | evidently intended | confidence | as-written member | corrected member |
|---|---|---|---|---|---|---|
| src/middleware.ts:15-41 | the "/admin" block refuses every non-platform-admin before the "/admin/association/" block runs, so that block never decides anything | an ASSOCIATION_ADMIN session on "/admin/association/1" is redirected to "/unauthorized" | association admins reach "/admin/association/…" pages and the page checks the specific association, as the block's comment and src/app/admin/association/[id]/page.tsx:133-136 say | not executed | Middleware.AsWrittenRefusesAssociationAdmins | Middleware.DecideIntended |

`Middleware.AssociationAdminBlockIsDead` shows that deleting the block changes
no decision. The rest of the model uses `Middleware.Decide`, the interceptor
as written, because that is what the other routes see. `Middleware.DecideIntended`
with `Middleware.IntendedStillGuardsAdminPages` gives the corrected behaviour.

## Left out

- The mock endpoints of src/server/api/routers/admin.ts (metrics, weaver application lists, approve, reject, flag, blacklist, history, moderation, insights): they return hard-coded data and decide nothing.
- `listAll` of the association router, and src/server/api/routers/user.ts and src/server/api/root.ts: wiring or mocks; `isPlatformAdmin` there is the role comparison `AuthUtils.IsPlatformAdmin` already states.
- The session lookup, the procedure builders and the platform-admin procedure: the actor is a parameter, and handlers reserved to platform admins say so in a comment.
- The matcher configuration of the interceptor (src/middleware.ts:109-118): it is the framework's path-pattern matching.
- Navigation, rendering and React state: outcomes are decision values; the client guard's state is the `authorized` flag only.
- Timestamps are integers and `now` is a parameter; a fresh RSVP takes `now` as its response time, as the schema default would.
- The user, association and weaver columns that the list endpoints and `event.getById` join in (names, emails, images, the event's association id and location): the replies carry the ids and rows the core decides on.
- The email format check of the admin assignment: only simple bounds of the validators are modelled.
- Atomicity: the handlers run sequentially; the find-then-write races are not modelled.
- The association `active` flag: no check reads it.
- The weaver social handles and answers: they are validated and not stored.
- The schema file is not part of this model: a new association's population is taken as 0, and the fixture association's limit as the router default of 30.
- The weaver status, applications, moderation and dashboard pages beyond the helpers listed in the table: their loading, error and table markup is presentation.
