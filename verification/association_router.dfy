/**
 * The association router: public and member reads, the admin-only member
 * list and update, appointing admins, and creating an association.
 */
module AssociationRouter {
  import opened Wrappers
  import opened Domain
  import opened AuthUtils
  import Sorting

  const AssociationNotFound := "Association not found"
  const NoAssociationAccess := "You don't have access to this association"
  const OnlyAdminsViewMembers := "Only association admins can view member details"
  const OnlyAdminsUpdate := "Only association admins can update association details"
  const OnlyOwnersAddAdmins := "Only association owners or platform admins can add admins"

  /** Default capacity of a new association. */
  const DefaultMaxPopulation := 30
  /** The schema's default for `population`; the schema is not part of this model. */
  const DefaultPopulation := 0

  // ---------------------------------------------------------------------------
  // getPublicById
  // ---------------------------------------------------------------------------

  /** The four public columns. */
  datatype PublicAssociation = PublicAssociation(id: AssociationId, location: string, population: int, maxPopulation: int)

  function GetPublicById(s: Store, id: AssociationId): (r: Result<PublicAssociation, Error>)
    ensures r.Err? <==> id !in s.associations
    ensures r.Err? ==> r.error == Error(NotFound, AssociationNotFound)
    ensures r.Ok? ==>
      && r.value.id == id
      && r.value.location == s.associations[id].location
      && r.value.population == s.associations[id].population
      && r.value.maxPopulation == s.associations[id].maxPopulation
  {
    if id !in s.associations then Err(Error(NotFound, AssociationNotFound))
    else
      var a := s.associations[id];
      Ok(PublicAssociation(id, a.location, a.population, a.maxPopulation))
  }

  // ---------------------------------------------------------------------------
  // getById
  // ---------------------------------------------------------------------------

  /** The association row with its upcoming events, earliest first. */
  datatype AssociationDetail = AssociationDetail(association: Association, events: seq<(EventId, Event)>)

  function EventDate(row: (EventId, Event)): int {
    row.1.date
  }

  method GetById(s: Store, actor: UserId, id: AssociationId, now: Time) returns (r: Result<AssociationDetail, Error>)
    ensures !IsAssociationMember(s, Some(actor), id) ==> r == Err(Error(Forbidden, NoAssociationAccess))
    ensures IsAssociationMember(s, Some(actor), id) && id !in s.associations ==> r == Err(Error(NotFound, AssociationNotFound))
    ensures r.Ok? <==> IsAssociationMember(s, Some(actor), id) && id in s.associations
    ensures r.Ok? ==> r.value.association == s.associations[id]
    ensures r.Ok? ==> forall row :: row in r.value.events <==>
      row.0 in s.events && row.1 == s.events[row.0] && row.1.associationId == id && row.1.date >= now
    ensures r.Ok? ==> |r.value.events| == |set k | k in s.events && s.events[k].associationId == id && s.events[k].date >= now|
    ensures r.Ok? ==> Sorting.SortedAsc(r.value.events, EventDate)
  {
    if !IsAssociationMember(s, Some(actor), id) {
      return Err(Error(Forbidden, NoAssociationAccess));
    }
    if id !in s.associations {
      return Err(Error(NotFound, AssociationNotFound));
    }
    var keep := (k: EventId, e: Event) => e.associationId == id && e.date >= now;
    var found := Sorting.Collect(s.events, keep);
    var sorted := Sorting.SortAsc(found, EventDate);
    forall row
      ensures row in sorted <==> row.0 in s.events && row.1 == s.events[row.0] && keep(row.0, row.1)
    {
      Sorting.SameElements(sorted, found, row);
      if row.0 in s.events && row.1 == s.events[row.0] && keep(row.0, row.1) {
        assert (row.0, s.events[row.0]) in found;
      }
    }
    assert Sorting.Selected(s.events, keep) == set k | k in s.events && s.events[k].associationId == id && s.events[k].date >= now;
    return Ok(AssociationDetail(s.associations[id], sorted));
  }

  /** The not-found reply is reachable only for a stored platform admin, whose
      authority does not need the association to exist. */
  lemma GetByIdNotFoundOnlyForPlatformAdmins(s: Store, actor: UserId, id: AssociationId)
    requires Valid(s) && id !in s.associations
    ensures IsAssociationMember(s, Some(actor), id) <==> actor != "" && StoredRole(s, actor) == Some(PlatformAdmin)
  {
  }

  // ---------------------------------------------------------------------------
  // getMembers
  // ---------------------------------------------------------------------------

  function Applicant(app: Application): UserId {
    app.userId
  }

  /** Rows collected once each: a user occurs once per qualifying row of theirs. */
  lemma RowsCounted(s: Store, id: AssociationId, found: seq<(ApplicationId, Application)>, u: UserId)
    requires forall x :: x in found ==>
      x.0 in s.applications && x.1 == s.applications[x.0] && Qualifies(x.1, x.1.userId, id)
    requires forall k :: k in s.applications && Qualifies(s.applications[k], s.applications[k].userId, id) ==>
      (k, s.applications[k]) in found
    requires Sorting.DistinctKeys(found)
    ensures multiset(Sorting.Project(found, Applicant))[u] ==
      |set k | k in s.applications && Qualifies(s.applications[k], u, id)|
  {
    Sorting.ProjectionCount(found, Applicant, u);
    var rowsOfU := set k | k in s.applications && Qualifies(s.applications[k], u, id);
    forall k | k in Sorting.KeysWhere(found, Applicant, u) ensures k in rowsOfU {
      var x :| x in found && Applicant(x.1) == u && x.0 == k;
    }
    forall k | k in rowsOfU ensures k in Sorting.KeysWhere(found, Applicant, u) {
      assert (k, s.applications[k]) in found;
    }
    assert Sorting.KeysWhere(found, Applicant, u) == rowsOfU;
  }

  /** The users of the association's approved-and-flagged rows, one entry per row. */
  method GetMembers(s: Store, actor: UserId, id: AssociationId) returns (r: Result<seq<UserId>, Error>)
    ensures r.Ok? <==> IsAdminOfAssociation(s, Some(actor), id)
    ensures r.Err? ==> r.error == Error(Forbidden, OnlyAdminsViewMembers)
    ensures r.Ok? ==> forall u :: u in r.value <==> HasApprovedApplication(s, u, id)
    ensures r.Ok? ==> forall u :: multiset(r.value)[u] == |set k | k in s.applications && Qualifies(s.applications[k], u, id)|
    ensures r.Ok? ==> |r.value| == |set k | k in s.applications && Qualifies(s.applications[k], s.applications[k].userId, id)|
  {
    if !IsAdminOfAssociation(s, Some(actor), id) {
      return Err(Error(Forbidden, OnlyAdminsViewMembers));
    }
    var keep := (k: ApplicationId, app: Application) => app.associationId == id && app.status == Approved && app.approved;
    var found := Sorting.Collect(s.applications, keep);
    var users := Sorting.Project(found, Applicant);
    forall u
      ensures u in users <==> HasApprovedApplication(s, u, id)
    {
      if u in users {
        var i :| 0 <= i < |users| && users[i] == u;
        assert found[i] in found;
        assert Qualifies(s.applications[found[i].0], u, id);
      }
      if HasApprovedApplication(s, u, id) {
        var k :| k in s.applications && Qualifies(s.applications[k], u, id);
        assert (k, s.applications[k]) in found;
        var i :| 0 <= i < |found| && found[i] == (k, s.applications[k]);
        assert users[i] == u;
      }
    }
    forall u
      ensures multiset(users)[u] == |set k | k in s.applications && Qualifies(s.applications[k], u, id)|
    {
      RowsCounted(s, id, found, u);
    }
    assert Sorting.Selected(s.applications, keep) ==
      set k | k in s.applications && Qualifies(s.applications[k], s.applications[k].userId, id);
    return Ok(users);
  }

  /** In a consistent store every listed user is a member; an admin without an
      approved row is a member but is not listed. */
  lemma {:induction false} ListedUsersAreMembers(s: Store, u: UserId, id: AssociationId)
    requires Valid(s) && HasApprovedApplication(s, u, id)
    ensures IsAssociationMember(s, Some(u), id)
  {
    var k :| k in s.applications && Qualifies(s.applications[k], u, id);
    assert s.applications[k].userId in s.users;
  }

  // ---------------------------------------------------------------------------
  // update
  // ---------------------------------------------------------------------------

  datatype UpdateAssociationInput = UpdateAssociationInput(id: AssociationId, location: Option<string>, maxPopulation: Option<int>)

  function Update(s: Store, actor: UserId, input: UpdateAssociationInput): (r: Result<(Store, Association), Error>)
    ensures input.maxPopulation.Some? && input.maxPopulation.value < 1 ==> r == Err(Error(BadRequest, InvalidInput))
    ensures r.Ok? <==>
      (input.maxPopulation.Some? ==> input.maxPopulation.value >= 1) &&
      IsAdminOfAssociation(s, Some(actor), input.id) && input.id in s.associations
    ensures r.Ok? ==>
      var a := s.associations[input.id];
      && r.value.0 == s.(associations := s.associations[input.id := r.value.1])
      && r.value.1.ownerId == a.ownerId && r.value.1.admins == a.admins
      && r.value.1.population == a.population
      && r.value.1.location == (if Truthy(input.location) then input.location.value else a.location)
      && r.value.1.maxPopulation == input.maxPopulation.GetOr(a.maxPopulation)
  {
    if input.maxPopulation.Some? && input.maxPopulation.value < 1 then Err(Error(BadRequest, InvalidInput))
    else if !IsAdminOfAssociation(s, Some(actor), input.id) then Err(Error(Forbidden, OnlyAdminsUpdate))
    else if input.id !in s.associations then Err(Error(InternalServerError, WriteRejected))
    else
      var a := s.associations[input.id];
      var a' := a.(location := if Truthy(input.location) then input.location.value else a.location,
                   maxPopulation := input.maxPopulation.GetOr(a.maxPopulation));
      Ok((s.(associations := s.associations[input.id := a']), a'))
  }

  /** An update leaves every authorization decision as it was. */
  lemma {:induction false} UpdateKeepsAuthority(s: Store, actor: UserId, input: UpdateAssociationInput, u: UserId, a: AssociationId)
    requires Update(s, actor, input).Ok?
    ensures var t := Update(s, actor, input).value.0;
      && IsAdminOfAssociation(t, Some(u), a) == IsAdminOfAssociation(s, Some(u), a)
      && IsAssociationMember(t, Some(u), a) == IsAssociationMember(s, Some(u), a)
  {
    var t := Update(s, actor, input).value.0;
    assert OwnsOrAdministers(t, u, a) == OwnsOrAdministers(s, u, a);
  }

  lemma UpdatePreservesValid(s: Store, actor: UserId, input: UpdateAssociationInput)
    requires Valid(s) && Update(s, actor, input).Ok?
    ensures Valid(Update(s, actor, input).value.0)
  {
  }

  // ---------------------------------------------------------------------------
  // addAdmin
  // ---------------------------------------------------------------------------

  /** The session's own role decides here, not the stored one. */
  function AddAdmin(s: Store, session: Principal, associationId: AssociationId, userId: UserId): (r: Result<(Store, Association), Error>)
    ensures associationId !in s.associations ==> r == Err(Error(NotFound, AssociationNotFound))
    ensures (associationId in s.associations && s.associations[associationId].ownerId != session.id &&
             session.role != PlatformAdmin) ==> r == Err(Error(Forbidden, OnlyOwnersAddAdmins))
    ensures r.Ok? <==>
      && associationId in s.associations
      && (s.associations[associationId].ownerId == session.id || session.role == PlatformAdmin)
      && userId in s.users
    ensures r.Ok? ==>
      var a := s.associations[associationId];
      && r.value.0 == s.(associations := s.associations[associationId := r.value.1])
      && r.value.1 == a.(admins := a.admins + {userId})
  {
    if associationId !in s.associations then Err(Error(NotFound, AssociationNotFound))
    else
      var a := s.associations[associationId];
      if a.ownerId != session.id && session.role != PlatformAdmin then Err(Error(Forbidden, OnlyOwnersAddAdmins))
      else if userId !in s.users then Err(Error(InternalServerError, WriteRejected))
      else
        var a' := a.(admins := a.admins + {userId});
        Ok((s.(associations := s.associations[associationId := a']), a'))
  }

  /** An appointed admin who does not own the association cannot appoint others. */
  lemma AppointedAdminCannotAppoint(s: Store, session: Principal, associationId: AssociationId, userId: UserId)
    requires associationId in s.associations && session.id in s.associations[associationId].admins
    requires s.associations[associationId].ownerId != session.id && session.role != PlatformAdmin
    ensures AddAdmin(s, session, associationId, userId).Err?
    ensures AddAdmin(s, session, associationId, userId).error.code == Forbidden
  {
  }

  /** After a successful appointment the target administers the association, the owner
      is unchanged, and repeating the call changes nothing. */
  lemma {:induction false} AddAdminEffect(s: Store, session: Principal, associationId: AssociationId, userId: UserId)
    requires Valid(s) && AddAdmin(s, session, associationId, userId).Ok?
    ensures var (t, a) := AddAdmin(s, session, associationId, userId).value;
      && IsAdminOfAssociation(t, Some(userId), associationId)
      && a.ownerId == s.associations[associationId].ownerId
      && AddAdmin(t, session, associationId, userId) == Ok((t, a))
      && Valid(t)
  {
    var (t, a) := AddAdmin(s, session, associationId, userId).value;
    assert userId != "";
    assert t.associations[associationId := a] == t.associations;
    assert AssociationsOk(t);
  }

  // ---------------------------------------------------------------------------
  // create
  // ---------------------------------------------------------------------------

  datatype CreateAssociationInput = CreateAssociationInput(location: string, ownerId: UserId, maxPopulation: Option<int>)

  /** Reserved to platform admins by the procedure builder; `newId` is the generated id. */
  function Create(s: Store, input: CreateAssociationInput, newId: AssociationId): (r: Result<(Store, Association), Error>)
    ensures input.maxPopulation.Some? && input.maxPopulation.value < 1 ==> r == Err(Error(BadRequest, InvalidInput))
    ensures r.Ok? <==>
      input.maxPopulation.GetOr(DefaultMaxPopulation) >= 1 && input.ownerId in s.users && newId !in s.associations
    ensures r.Ok? ==>
      && r.value.0 == s.(associations := s.associations[newId := r.value.1])
      && r.value.1.ownerId == input.ownerId
      && r.value.1.admins == {input.ownerId}
      && r.value.1.location == input.location
      && r.value.1.maxPopulation == input.maxPopulation.GetOr(DefaultMaxPopulation)
  {
    var cap := input.maxPopulation.GetOr(DefaultMaxPopulation);
    if cap < 1 then Err(Error(BadRequest, InvalidInput))
    else if input.ownerId !in s.users || newId in s.associations then Err(Error(InternalServerError, WriteRejected))
    else
      var a := Association(input.ownerId, {input.ownerId}, input.location, DefaultPopulation, cap);
      Ok((s.(associations := s.associations[newId := a]), a))
  }

  /** The owner is an admin, and hence a member, from the moment of creation. */
  lemma {:induction false} OwnerIsAdminFromCreation(s: Store, input: CreateAssociationInput, newId: AssociationId)
    requires Valid(s) && Create(s, input, newId).Ok?
    ensures var t := Create(s, input, newId).value.0;
      && IsAdminOfAssociation(t, Some(input.ownerId), newId)
      && IsAssociationMember(t, Some(input.ownerId), newId)
      && Valid(t)
  {
    var t := Create(s, input, newId).value.0;
    assert input.ownerId != "";
    assert AssociationsOk(t);
    assert ApplicationsOk(t) && EventsOk(t);
  }
}
