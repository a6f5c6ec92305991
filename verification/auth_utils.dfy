/**
 * Role and resource predicates: the flat role checks on a session user, the
 * per-association admin authority, derived membership, and the two event
 * checks that reduce an event to its owning association. All are total:
 * an absent user or a missing resource yields false.
 */
module AuthUtils {
  import opened Wrappers
  import opened Domain

  /** `isPlatformAdmin(user)` on a possibly absent session user. */
  predicate IsPlatformAdmin(user: Option<Principal>) {
    user.Some? && user.value.role == PlatformAdmin
  }

  /** `isAssociationAdmin(user)`: platform admins count as association admins. */
  predicate IsAssociationAdmin(user: Option<Principal>) {
    user.Some? && (user.value.role == PlatformAdmin || user.value.role == AssociationAdmin)
  }

  /** The role stored in the user table, read by the resource-scoped check. */
  function StoredRole(s: Store, u: UserId): Option<Role> {
    if u in s.users then Some(s.users[u].role) else None
  }

  /** The association exists and `u` is its owner or one of its appointed admins. */
  predicate OwnsOrAdministers(s: Store, u: UserId, a: AssociationId) {
    a in s.associations && (s.associations[a].ownerId == u || u in s.associations[a].admins)
  }

  /** `isAdminOfAssociation(userId, associationId)`. */
  predicate IsAdminOfAssociation(s: Store, userId: Option<UserId>, a: AssociationId) {
    if !Present(userId) then false
    else if StoredRole(s, userId.value) == Some(PlatformAdmin) then true
    else OwnsOrAdministers(s, userId.value, a)
  }

  /** The filter of the membership query: this user, this association, APPROVED and approved. */
  predicate Qualifies(app: Application, u: UserId, a: AssociationId) {
    app.userId == u && app.associationId == a && app.status == Approved && app.approved
  }

  predicate HasApprovedApplication(s: Store, u: UserId, a: AssociationId) {
    exists id :: id in s.applications && Qualifies(s.applications[id], u, a)
  }

  /** `isAssociationMember(userId, associationId)`: admins first, then an approved row. */
  predicate IsAssociationMember(s: Store, userId: Option<UserId>, a: AssociationId) {
    if !Present(userId) then false
    else if IsAdminOfAssociation(s, userId, a) then true
    else HasApprovedApplication(s, userId.value, a)
  }

  /** `canManageEvent(userId, eventId)`. */
  predicate CanManageEvent(s: Store, userId: Option<UserId>, e: EventId) {
    if !Present(userId) then false
    else if e !in s.events then false
    else IsAdminOfAssociation(s, userId, s.events[e].associationId)
  }

  /** `canAttendEvent(userId, eventId)`. */
  predicate CanAttendEvent(s: Store, userId: Option<UserId>, e: EventId) {
    if !Present(userId) then false
    else if e !in s.events then false
    else IsAssociationMember(s, userId, s.events[e].associationId)
  }

  // ---------------------------------------------------------------------------
  // Flat role checks against the capability order
  // ---------------------------------------------------------------------------

  /** The platform-admin check is the top of the role order; absent users fail. */
  lemma PlatformAdminIsTopRank(user: Option<Principal>)
    ensures IsPlatformAdmin(user) <==> user.Some? && Rank(user.value.role) == 2
    ensures user.None? ==> !IsPlatformAdmin(user)
  {
  }

  /** The association-admin check is "at least ASSOCIATION_ADMIN" in the role order. */
  lemma AssociationAdminIsAtLeastRank(user: Option<Principal>)
    ensures IsAssociationAdmin(user) <==> user.Some? && Rank(user.value.role) >= Rank(AssociationAdmin)
    ensures user.None? ==> !IsAssociationAdmin(user)
  {
  }

  lemma PlatformAdminIsAssociationAdmin(user: Option<Principal>)
    ensures IsPlatformAdmin(user) ==> IsAssociationAdmin(user)
  {
  }

  // ---------------------------------------------------------------------------
  // Association-admin authority
  // ---------------------------------------------------------------------------

  /** No user id, no authority. */
  lemma AbsentUserIsNeverAdmin(s: Store, userId: Option<UserId>, a: AssociationId)
    requires !Present(userId)
    ensures !IsAdminOfAssociation(s, userId, a)
    ensures !IsAssociationMember(s, userId, a)
  {
  }

  /** A stored PLATFORM_ADMIN administers every association id, existing or not. */
  lemma PlatformAdminBypass(s: Store, u: UserId, a: AssociationId)
    requires u != "" && u in s.users && s.users[u].role == PlatformAdmin
    ensures IsAdminOfAssociation(s, Some(u), a)
    ensures IsAssociationMember(s, Some(u), a)
  {
  }

  /** For everyone else the authority is exactly ownership or appointment, on an existing association. */
  lemma NonPlatformAdminAuthority(s: Store, u: UserId, a: AssociationId)
    requires u != "" && StoredRole(s, u) != Some(PlatformAdmin)
    ensures IsAdminOfAssociation(s, Some(u), a) <==>
              a in s.associations && (s.associations[a].ownerId == u || u in s.associations[a].admins)
    ensures a !in s.associations ==> !IsAdminOfAssociation(s, Some(u), a)
  {
  }

  /** The ASSOCIATION_ADMIN role alone grants nothing: switching a user between
      USER and ASSOCIATION_ADMIN never changes any resource-scoped decision. */
  lemma {:induction false} RoleBelowPlatformIsIrrelevant(s: Store, u: UserId, r: Role, v: UserId, a: AssociationId)
    requires u in s.users && s.users[u].role != PlatformAdmin && r != PlatformAdmin
    ensures var t := s.(users := s.users[u := s.users[u].(role := r)]);
      && IsAdminOfAssociation(t, Some(v), a) == IsAdminOfAssociation(s, Some(v), a)
      && IsAssociationMember(t, Some(v), a) == IsAssociationMember(s, Some(v), a)
  {
    var t := s.(users := s.users[u := s.users[u].(role := r)]);
    assert StoredRole(t, v) == Some(PlatformAdmin) <==> StoredRole(s, v) == Some(PlatformAdmin);
    assert t.applications == s.applications && t.associations == s.associations;
  }

  // ---------------------------------------------------------------------------
  // Membership
  // ---------------------------------------------------------------------------

  /** Membership is admin authority or one qualifying application row. */
  lemma MembershipCharacterization(s: Store, u: UserId, a: AssociationId)
    requires u != ""
    ensures IsAssociationMember(s, Some(u), a) <==>
              IsAdminOfAssociation(s, Some(u), a) ||
              exists id :: id in s.applications && s.applications[id].userId == u &&
                s.applications[id].associationId == a && s.applications[id].status == Approved &&
                s.applications[id].approved
  {
  }

  lemma AdminIsMember(s: Store, userId: Option<UserId>, a: AssociationId)
    ensures IsAdminOfAssociation(s, userId, a) ==> IsAssociationMember(s, userId, a)
  {
  }

  /** The APPROVED status alone does not make a member: without admin authority, a
      user none of whose rows for the association carries the `approved` flag is not a
      member, whatever the rows' statuses. */
  lemma ApprovedStatusWithoutFlagIsNotMembership(s: Store, u: UserId, a: AssociationId)
    requires !IsAdminOfAssociation(s, Some(u), a)
    requires forall id :: id in RowsOf(s.applications, u, a) ==> !RowsOf(s.applications, u, a)[id].approved
    ensures !IsAssociationMember(s, Some(u), a)
  {
    forall id | id in s.applications && s.applications[id].userId == u && s.applications[id].associationId == a
      ensures !s.applications[id].approved
    {
      assert id in RowsOf(s.applications, u, a);
    }
  }

  /** The application rows of one (user, association) pair. */
  function RowsOf(apps: map<ApplicationId, Application>, u: UserId, a: AssociationId): (rows: map<ApplicationId, Application>)
    ensures rows.Keys <= apps.Keys
    ensures forall id :: id in rows ==> rows[id] == apps[id] && rows[id].userId == u && rows[id].associationId == a
    ensures forall id :: id in apps && apps[id].userId == u && apps[id].associationId == a ==> id in rows
  {
    map id | id in apps && apps[id].userId == u && apps[id].associationId == a :: apps[id]
  }

  /** Membership of (u, a) depends on the applications of that pair only. */
  lemma {:induction false} MembershipDependsOnOwnRows(s: Store, t: Store, u: UserId, a: AssociationId)
    requires s.users == t.users && s.associations == t.associations
    requires RowsOf(s.applications, u, a) == RowsOf(t.applications, u, a)
    ensures IsAssociationMember(s, Some(u), a) == IsAssociationMember(t, Some(u), a)
  {
    assert IsAdminOfAssociation(s, Some(u), a) == IsAdminOfAssociation(t, Some(u), a);
    if HasApprovedApplication(s, u, a) {
      var id :| id in s.applications && Qualifies(s.applications[id], u, a);
      assert id in RowsOf(s.applications, u, a);
      assert id in t.applications && Qualifies(t.applications[id], u, a);
    }
    if HasApprovedApplication(t, u, a) {
      var id :| id in t.applications && Qualifies(t.applications[id], u, a);
      assert id in RowsOf(t.applications, u, a);
      assert id in s.applications && Qualifies(s.applications[id], u, a);
    }
  }

  // ---------------------------------------------------------------------------
  // Event checks
  // ---------------------------------------------------------------------------

  /** Both event checks reduce to the owning association, and fail for a missing event. */
  lemma EventChecksReduceToAssociation(s: Store, u: UserId, e: EventId)
    requires u != ""
    ensures e !in s.events ==> !CanManageEvent(s, Some(u), e) && !CanAttendEvent(s, Some(u), e)
    ensures e in s.events ==>
      && CanManageEvent(s, Some(u), e) == IsAdminOfAssociation(s, Some(u), s.events[e].associationId)
      && CanAttendEvent(s, Some(u), e) == IsAssociationMember(s, Some(u), s.events[e].associationId)
  {
  }

  lemma ManageImpliesAttend(s: Store, userId: Option<UserId>, e: EventId)
    ensures CanManageEvent(s, userId, e) ==> CanAttendEvent(s, userId, e)
  {
  }

  /** In a consistent store whoever passes a resource-scoped check is a stored user. */
  lemma {:induction false} AuthorityImpliesStoredUser(s: Store, u: UserId, a: AssociationId)
    requires Valid(s)
    requires IsAssociationMember(s, Some(u), a)
    ensures u in s.users
  {
    if StoredRole(s, u) == Some(PlatformAdmin) {
    } else if OwnsOrAdministers(s, u, a) {
      assert s.associations[a].ownerId in s.users;
      assert s.associations[a].admins <= s.users.Keys;
    } else {
      var id :| id in s.applications && Qualifies(s.applications[id], u, a);
      assert s.applications[id].userId in s.users;
    }
  }
}
