/**
 * The event router: each procedure is a transition from the store, the
 * session user's id and the validated input to a new store and a reply, or
 * to the error it throws. Every guard consults the event checks.
 */
module EventRouter {
  import opened Wrappers
  import opened Domain
  import opened AuthUtils
  import Sorting

  const NoEventAccess := "You don't have access to this event"
  const EventNotFound := "Event not found"
  const OnlyAdminsCreate := "Only association admins can create events"
  const OnlyAdminsUpdate := "Only association admins can update events"
  const OnlyAdminsViewRsvps := "Only association admins can view all RSVPs"
  const OnlyAdminsCheckIn := "Only association admins can check in users"
  const SubjectNotMember := "This user is not a member of the association"

  // ---------------------------------------------------------------------------
  // getById
  // ---------------------------------------------------------------------------

  /** The event as returned: the row and the caller's own RSVP, if any. */
  datatype EventView = EventView(event: Event, userRsvp: Option<Rsvp>)

  function GetById(s: Store, actor: UserId, id: EventId): (r: Result<EventView, Error>)
    ensures r.Ok? <==> CanAttendEvent(s, Some(actor), id)
    ensures r.Err? ==> r.error == Error(Forbidden, NoEventAccess)
    ensures r.Ok? ==> id in s.events && r.value.event == s.events[id]
    ensures r.Ok? ==> (r.value.userRsvp.Some? <==> (id, actor) in s.rsvps)
    ensures r.Ok? && r.value.userRsvp.Some? ==> r.value.userRsvp.value == s.rsvps[(id, actor)]
  {
    if !CanAttendEvent(s, Some(actor), id) then Err(Error(Forbidden, NoEventAccess))
    else if id !in s.events then Err(Error(NotFound, EventNotFound))
    else Ok(EventView(s.events[id], if (id, actor) in s.rsvps then Some(s.rsvps[(id, actor)]) else None))
  }

  /** A nonexistent event id is reported as FORBIDDEN: the not-found branch is never reached. */
  lemma MissingEventIsForbidden(s: Store, actor: UserId, id: EventId)
    requires id !in s.events
    ensures GetById(s, actor, id) == Err(Error(Forbidden, NoEventAccess))
  {
  }

  // ---------------------------------------------------------------------------
  // createRsvp
  // ---------------------------------------------------------------------------

  datatype RsvpInput = RsvpInput(
    eventId: EventId,
    status: RsvpStatus,
    comment: Option<string>,
    guestsCount: Option<int>)

  /** `upsert` on (eventId, userId): a fresh row, or the row stored under that
      compound key (so carrying that key) with the given fields replaced; an
      undefined comment leaves the stored one. */
  function UpsertRsvp(s: Store, actor: UserId, input: RsvpInput, guests: nat, now: Time): Rsvp {
    var key := (input.eventId, actor);
    if key in s.rsvps then
      var prev := s.rsvps[key];
      prev.(eventId := input.eventId, userId := actor,
            status := input.status,
           comment := if input.comment.Some? then input.comment else prev.comment,
           guestsCount := guests,
           respondedAt := now)
    else Rsvp(input.eventId, actor, input.status, input.comment, guests, now)
  }

  function CreateRsvp(s: Store, actor: UserId, input: RsvpInput, now: Time): (r: Result<(Store, Rsvp), Error>)
    ensures input.guestsCount.Some? && input.guestsCount.value < 0 ==> r == Err(Error(BadRequest, InvalidInput))
    ensures r.Ok? <==> input.guestsCount.GetOr(0) >= 0 && CanAttendEvent(s, Some(actor), input.eventId)
    ensures r.Ok? ==> r.value.0 == s.(rsvps := s.rsvps[(input.eventId, actor) := r.value.1])
    ensures r.Ok? ==>
      && r.value.1.eventId == input.eventId && r.value.1.userId == actor
      && r.value.1.status == input.status
      && r.value.1.guestsCount == input.guestsCount.GetOr(0)
      && r.value.1.respondedAt == now
    ensures r.Ok? && input.comment.Some? ==> r.value.1.comment == input.comment
    ensures r.Ok? && input.comment.None? ==>
      r.value.1.comment == (if (input.eventId, actor) in s.rsvps then s.rsvps[(input.eventId, actor)].comment else None)
  {
    var guests := input.guestsCount.GetOr(0);
    if guests < 0 then Err(Error(BadRequest, InvalidInput))
    else if !CanAttendEvent(s, Some(actor), input.eventId) then Err(Error(Forbidden, NoEventAccess))
    else
      var row := UpsertRsvp(s, actor, input, guests, now);
      Ok((s.(rsvps := s.rsvps[(input.eventId, actor) := row]), row))
  }

  /** A repeated RSVP with the same input at the same instant changes nothing more:
      the upsert keyed on (event, user) is idempotent. */
  lemma {:induction false} CreateRsvpIdempotent(s: Store, actor: UserId, input: RsvpInput, now: Time)
    requires CreateRsvp(s, actor, input, now).Ok?
    ensures var (t, row) := CreateRsvp(s, actor, input, now).value;
      CreateRsvp(t, actor, input, now) == Ok((t, row))
  {
    var (t, row) := CreateRsvp(s, actor, input, now).value;
    assert CanAttendEvent(t, Some(actor), input.eventId) == CanAttendEvent(s, Some(actor), input.eventId) by {
      assert t.users == s.users && t.associations == s.associations;
      assert t.applications == s.applications && t.events == s.events;
    }
    assert t.rsvps[(input.eventId, actor) := row] == t.rsvps;
  }

  lemma {:induction false} CreateRsvpPreservesValid(s: Store, actor: UserId, input: RsvpInput, now: Time)
    requires Valid(s) && CreateRsvp(s, actor, input, now).Ok?
    ensures Valid(CreateRsvp(s, actor, input, now).value.0)
  {
    var (t, row) := CreateRsvp(s, actor, input, now).value;
    AuthorityImpliesStoredUser(s, actor, s.events[input.eventId].associationId);
    assert RsvpsOk(t);
  }

  // ---------------------------------------------------------------------------
  // create
  // ---------------------------------------------------------------------------

  datatype CreateEventInput = CreateEventInput(
    name: string,
    location: string,
    associationId: AssociationId,
    date: Time,
    arrivalTime: Time,
    arrivalRules: Option<ArrivalRule>,
    descriptionMd: Option<string>,
    ticketLink: Option<string>)

  /** `newId` is the identifier the database generates for the row. */
  function Create(s: Store, actor: UserId, input: CreateEventInput, newId: EventId): (r: Result<(Store, Event), Error>)
    ensures !IsAdminOfAssociation(s, Some(actor), input.associationId) ==> r == Err(Error(Forbidden, OnlyAdminsCreate))
    ensures r.Ok? <==>
      IsAdminOfAssociation(s, Some(actor), input.associationId) &&
      input.associationId in s.associations && newId !in s.events
    ensures r.Ok? ==>
      && r.value.0 == s.(events := s.events[newId := r.value.1])
      && r.value.1.associationId == input.associationId
      && r.value.1.name == input.name && r.value.1.location == input.location
      && r.value.1.date == input.date && r.value.1.arrivalTime == input.arrivalTime
      && r.value.1.arrivalRules == input.arrivalRules.GetOr(OnTime)
      && r.value.1.descriptionMd == input.descriptionMd && r.value.1.ticketLink == input.ticketLink
  {
    if !IsAdminOfAssociation(s, Some(actor), input.associationId) then Err(Error(Forbidden, OnlyAdminsCreate))
    else if input.associationId !in s.associations || newId in s.events then
      Err(Error(InternalServerError, WriteRejected))
    else
      var e := Event(input.associationId, input.name, input.location, input.date, input.arrivalTime,
                     input.arrivalRules.GetOr(OnTime), input.descriptionMd, input.ticketLink);
      Ok((s.(events := s.events[newId := e]), e))
  }

  /** Whoever creates an event can manage it afterwards. */
  lemma CreatorManagesEvent(s: Store, actor: UserId, input: CreateEventInput, newId: EventId)
    requires actor != "" && Create(s, actor, input, newId).Ok?
    ensures CanManageEvent(Create(s, actor, input, newId).value.0, Some(actor), newId)
  {
  }

  lemma CreatePreservesValid(s: Store, actor: UserId, input: CreateEventInput, newId: EventId)
    requires Valid(s) && Create(s, actor, input, newId).Ok?
    ensures Valid(Create(s, actor, input, newId).value.0)
  {
  }

  // ---------------------------------------------------------------------------
  // update
  // ---------------------------------------------------------------------------

  datatype UpdateEventInput = UpdateEventInput(
    id: EventId,
    name: Option<string>,
    location: Option<string>,
    date: Option<Time>,
    arrivalTime: Option<Time>,
    arrivalRules: Option<ArrivalRule>,
    descriptionMd: Option<string>,
    ticketLink: Option<string>)

  /** The update data: text fields only when truthy, dates and the rule when
      given, description and ticket link whenever defined (even as ""). */
  function Patch(e: Event, input: UpdateEventInput): Event {
    e.(name := if Truthy(input.name) then input.name.value else e.name,
       location := if Truthy(input.location) then input.location.value else e.location,
       date := input.date.GetOr(e.date),
       arrivalTime := input.arrivalTime.GetOr(e.arrivalTime),
       arrivalRules := input.arrivalRules.GetOr(e.arrivalRules),
       descriptionMd := if input.descriptionMd.Some? then input.descriptionMd else e.descriptionMd,
       ticketLink := if input.ticketLink.Some? then input.ticketLink else e.ticketLink)
  }

  function Update(s: Store, actor: UserId, input: UpdateEventInput): (r: Result<(Store, Event), Error>)
    ensures r.Ok? <==> CanManageEvent(s, Some(actor), input.id)
    ensures r.Err? ==> r.error == Error(Forbidden, OnlyAdminsUpdate)
    ensures r.Ok? ==> input.id in s.events && r.value.0 == s.(events := s.events[input.id := r.value.1])
    ensures r.Ok? ==> r.value.1.associationId == s.events[input.id].associationId
    ensures r.Ok? && !Truthy(input.name) ==> r.value.1.name == s.events[input.id].name
    ensures r.Ok? && Truthy(input.name) ==> r.value.1.name == input.name.value
    ensures r.Ok? && !Truthy(input.location) ==> r.value.1.location == s.events[input.id].location
    ensures r.Ok? && Truthy(input.location) ==> r.value.1.location == input.location.value
    ensures r.Ok? ==> r.value.1.date == input.date.GetOr(s.events[input.id].date)
    ensures r.Ok? ==> r.value.1.arrivalTime == input.arrivalTime.GetOr(s.events[input.id].arrivalTime)
    ensures r.Ok? ==> r.value.1.arrivalRules == input.arrivalRules.GetOr(s.events[input.id].arrivalRules)
    ensures r.Ok? && input.descriptionMd.Some? ==> r.value.1.descriptionMd == input.descriptionMd
    ensures r.Ok? && input.descriptionMd.None? ==> r.value.1.descriptionMd == s.events[input.id].descriptionMd
    ensures r.Ok? && input.ticketLink.Some? ==> r.value.1.ticketLink == input.ticketLink
    ensures r.Ok? && input.ticketLink.None? ==> r.value.1.ticketLink == s.events[input.id].ticketLink
  {
    if !CanManageEvent(s, Some(actor), input.id) then Err(Error(Forbidden, OnlyAdminsUpdate))
    else
      var e := Patch(s.events[input.id], input);
      Ok((s.(events := s.events[input.id := e]), e))
  }

  /** An update whose every field is undefined or "" (apart from the two nullable
      text fields, which it must leave undefined) changes nothing. */
  lemma EmptyUpdateChangesNothing(s: Store, actor: UserId, id: EventId, blankName: Option<string>, blankLocation: Option<string>)
    requires !Truthy(blankName) && !Truthy(blankLocation)
    requires Update(s, actor, UpdateEventInput(id, blankName, blankLocation, None, None, None, None, None)).Ok?
    ensures Update(s, actor, UpdateEventInput(id, blankName, blankLocation, None, None, None, None, None)).value.0 == s
  {
    var t := Update(s, actor, UpdateEventInput(id, blankName, blankLocation, None, None, None, None, None)).value.0;
    assert t.events == s.events;
  }

  /** Applying the same update twice is the same as applying it once. */
  lemma {:induction false} UpdateIdempotent(s: Store, actor: UserId, input: UpdateEventInput)
    requires Update(s, actor, input).Ok?
    ensures var (t, e) := Update(s, actor, input).value;
      Update(t, actor, input) == Ok((t, e))
  {
    var (t, e) := Update(s, actor, input).value;
    assert t.events[input.id].associationId == s.events[input.id].associationId;
    assert CanManageEvent(t, Some(actor), input.id);
    assert Patch(e, input) == e;
    assert t.events[input.id := e] == t.events;
  }

  lemma UpdatePreservesValid(s: Store, actor: UserId, input: UpdateEventInput)
    requires Valid(s) && Update(s, actor, input).Ok?
    ensures Valid(Update(s, actor, input).value.0)
  {
  }

  // ---------------------------------------------------------------------------
  // getRsvps
  // ---------------------------------------------------------------------------

  function RespondedAt(row: (Attendance, Rsvp)): int {
    row.1.respondedAt
  }

  /** The RSVPs of one event, most recent response first. */
  method GetRsvps(s: Store, actor: UserId, eventId: EventId) returns (r: Result<seq<(Attendance, Rsvp)>, Error>)
    ensures r.Ok? <==> CanManageEvent(s, Some(actor), eventId)
    ensures r.Err? ==> r.error == Error(Forbidden, OnlyAdminsViewRsvps)
    ensures r.Ok? ==> forall row :: row in r.value <==>
      row.0 in s.rsvps && row.1 == s.rsvps[row.0] && row.1.eventId == eventId
    ensures r.Ok? ==> |r.value| == |set k | k in s.rsvps && s.rsvps[k].eventId == eventId|
    ensures r.Ok? ==> Sorting.SortedDesc(r.value, RespondedAt)
  {
    if !CanManageEvent(s, Some(actor), eventId) {
      return Err(Error(Forbidden, OnlyAdminsViewRsvps));
    }
    var keep := (k: Attendance, v: Rsvp) => v.eventId == eventId;
    var found := Sorting.Collect(s.rsvps, keep);
    var sorted := Sorting.SortDesc(found, RespondedAt);
    forall row
      ensures row in sorted <==> row.0 in s.rsvps && row.1 == s.rsvps[row.0] && row.1.eventId == eventId
    {
      Sorting.SameElements(sorted, found, row);
      if row.0 in s.rsvps && row.1 == s.rsvps[row.0] && keep(row.0, row.1) {
        assert (row.0, s.rsvps[row.0]) in found;
      }
    }
    assert Sorting.Selected(s.rsvps, keep) == set k | k in s.rsvps && s.rsvps[k].eventId == eventId;
    return Ok(sorted);
  }

  // ---------------------------------------------------------------------------
  // checkInUser
  // ---------------------------------------------------------------------------

  datatype CheckInInput = CheckInInput(eventId: EventId, userId: UserId, notes: Option<string>)

  /** `upsert` on (eventId, userId), keyed like the RSVP upsert; an undefined
      note leaves the stored one. */
  function UpsertCheckin(s: Store, actor: UserId, input: CheckInInput, now: Time): Checkin {
    var key := (input.eventId, input.userId);
    if key in s.checkins then
      var prev := s.checkins[key];
      prev.(eventId := input.eventId, userId := input.userId, checkedInAt := now, checkedInById := actor,
           notes := if input.notes.Some? then input.notes else prev.notes)
    else Checkin(input.eventId, input.userId, actor, input.notes, now)
  }

  function CheckInUser(s: Store, actor: UserId, input: CheckInInput, now: Time): (r: Result<(Store, Checkin), Error>)
    ensures !CanManageEvent(s, Some(actor), input.eventId) ==> r == Err(Error(Forbidden, OnlyAdminsCheckIn))
    ensures CanManageEvent(s, Some(actor), input.eventId) && !CanAttendEvent(s, Some(input.userId), input.eventId) ==>
      r == Err(Error(Forbidden, SubjectNotMember))
    ensures r.Ok? <==> CanManageEvent(s, Some(actor), input.eventId) && CanAttendEvent(s, Some(input.userId), input.eventId)
    ensures r.Ok? ==> r.value.0 == s.(checkins := s.checkins[(input.eventId, input.userId) := r.value.1])
    ensures r.Ok? ==>
      && r.value.1.eventId == input.eventId && r.value.1.userId == input.userId
      && r.value.1.checkedInById == actor && r.value.1.checkedInAt == now
  {
    if !CanManageEvent(s, Some(actor), input.eventId) then Err(Error(Forbidden, OnlyAdminsCheckIn))
    else if !CanAttendEvent(s, Some(input.userId), input.eventId) then Err(Error(Forbidden, SubjectNotMember))
    else
      var row := UpsertCheckin(s, actor, input, now);
      Ok((s.(checkins := s.checkins[(input.eventId, input.userId) := row]), row))
  }

  lemma {:induction false} CheckInUserPreservesValid(s: Store, actor: UserId, input: CheckInInput, now: Time)
    requires Valid(s) && CheckInUser(s, actor, input, now).Ok?
    ensures Valid(CheckInUser(s, actor, input, now).value.0)
  {
    var t := CheckInUser(s, actor, input, now).value.0;
    var a := s.events[input.eventId].associationId;
    AdminIsMember(s, Some(actor), a);
    AuthorityImpliesStoredUser(s, actor, a);
    AuthorityImpliesStoredUser(s, input.userId, a);
    assert CheckinsOk(t);
  }
}
