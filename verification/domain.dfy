/**
 * The data the authorization core reads and writes: the three-tier role,
 * the application and RSVP enumerations, one record per table row, and the
 * store as a set of immutable maps keyed the way the database keys them.
 */
module Domain {
  import opened Wrappers

  type UserId = string
  type AssociationId = string
  type ApplicationId = string
  type EventId = string
  type WeaverId = string

  /** Timestamps are compared only, so any total order will do. */
  type Time = int

  /** Platform-wide capability of a user, ordered USER < ASSOCIATION_ADMIN < PLATFORM_ADMIN. */
  datatype Role = User | AssociationAdmin | PlatformAdmin

  /** Position of a role in the capability order. */
  function Rank(r: Role): nat {
    match r
    case User => 0
    case AssociationAdmin => 1
    case PlatformAdmin => 2
  }

  datatype ApplicationStatus =
    | New | UnderReview | Approved | Rejected | Kicked | SelfImmolate | Invited

  /** The enumeration literal the database and the pages use for a status. */
  function StatusName(st: ApplicationStatus): string {
    match st
    case New => "NEW"
    case UnderReview => "UNDER_REVIEW"
    case Approved => "APPROVED"
    case Rejected => "REJECTED"
    case Kicked => "KICKED"
    case SelfImmolate => "SELFIMMOLATE"
    case Invited => "INVITED"
  }

  datatype ArrivalRule = OnTime | BritishSocial | BritishBusiness | German

  datatype RsvpStatus = Yes | No | Maybe | Late | Cancelled

  /** A row of the user table (only the columns the core reads). */
  datatype Account = Account(email: string, role: Role)

  datatype Association = Association(
    ownerId: UserId,
    admins: set<UserId>,
    location: string,
    population: int,
    maxPopulation: int)

  datatype Application = Application(
    userId: UserId,
    associationId: AssociationId,
    status: ApplicationStatus,
    approved: bool,
    createdAt: Time)

  datatype Event = Event(
    associationId: AssociationId,
    name: string,
    location: string,
    date: Time,
    arrivalTime: Time,
    arrivalRules: ArrivalRule,
    descriptionMd: Option<string>,
    ticketLink: Option<string>)

  datatype Rsvp = Rsvp(
    eventId: EventId,
    userId: UserId,
    status: RsvpStatus,
    comment: Option<string>,
    guestsCount: nat,
    respondedAt: Time)

  datatype Checkin = Checkin(
    eventId: EventId,
    userId: UserId,
    checkedInById: UserId,
    notes: Option<string>,
    checkedInAt: Time)

  datatype Weaver = Weaver(userId: UserId, location: string, createdAt: Time)

  /** RSVPs and check-ins are keyed by the compound unique key (eventId, userId). */
  type Attendance = (EventId, UserId)

  datatype Store = Store(
    users: map<UserId, Account>,
    associations: map<AssociationId, Association>,
    applications: map<ApplicationId, Application>,
    events: map<EventId, Event>,
    rsvps: map<Attendance, Rsvp>,
    checkins: map<Attendance, Checkin>,
    weavers: map<WeaverId, Weaver>)

  /** The authenticated session user: an id and the role recorded in the session. */
  datatype Principal = Principal(id: UserId, role: Role)

  /** The tRPC error codes the handlers raise. A plain `Error` or a failing
      database write surfaces as INTERNAL_SERVER_ERROR. */
  datatype Code = NotFound | Forbidden | BadRequest | InternalServerError

  datatype Error = Error(code: Code, message: string)

  /** Stands for the database's rejection of a write: a missing row, a foreign key
      or a unique column. */
  const WriteRejected := "database write rejected"

  /** Stands for the input validator's rejection, raised before the handler body runs. */
  const InvalidInput := "invalid input"

  /** JavaScript truthiness of an optional id: `undefined`, `null` and "" are all falsy. */
  predicate Present(u: Option<UserId>) {
    u.Some? && u.value != ""
  }

  /** Truthiness of an optional string field. */
  predicate Truthy(s: Option<string>) {
    s.Some? && s.value != ""
  }

  // ---------------------------------------------------------------------------
  // Referential integrity the database enforces (foreign keys, unique indexes),
  // plus the assumption that no user id is empty.
  // ---------------------------------------------------------------------------

  // Each constraint is stated over the tables it reads, so a write to one table
  // leaves the constraints on the others evidently intact.

  /** Not a database constraint but a modelling assumption: generated ids are never
      empty, so the handlers' falsy-`userId` checks agree with the stored users. */
  ghost predicate NoEmptyUserId(users: map<UserId, Account>) {
    "" !in users
  }

  /** Email is a unique column. */
  ghost predicate UniqueEmails(users: map<UserId, Account>) {
    forall a, b :: a in users && b in users && users[a].email == users[b].email ==> a == b
  }

  ghost predicate AssociationsRefer(associations: map<AssociationId, Association>, userIds: set<UserId>) {
    forall a :: a in associations ==>
      associations[a].ownerId in userIds && associations[a].admins <= userIds
  }

  ghost predicate ApplicationsRefer(applications: map<ApplicationId, Application>, userIds: set<UserId>, associationIds: set<AssociationId>) {
    forall id :: id in applications ==>
      applications[id].userId in userIds && applications[id].associationId in associationIds
  }

  ghost predicate EventsRefer(events: map<EventId, Event>, associationIds: set<AssociationId>) {
    forall e :: e in events ==> events[e].associationId in associationIds
  }

  ghost predicate RsvpsRefer(rsvps: map<Attendance, Rsvp>, eventIds: set<EventId>, userIds: set<UserId>) {
    forall k :: k in rsvps ==>
      && k.0 in eventIds && k.1 in userIds
      && rsvps[k].eventId == k.0 && rsvps[k].userId == k.1
  }

  ghost predicate CheckinsRefer(checkins: map<Attendance, Checkin>, eventIds: set<EventId>, userIds: set<UserId>) {
    forall k :: k in checkins ==>
      && k.0 in eventIds && k.1 in userIds
      && checkins[k].eventId == k.0 && checkins[k].userId == k.1
      && checkins[k].checkedInById in userIds
  }

  /** Weaver.userId is a foreign key and a unique column: at most one profile per user. */
  ghost predicate WeaversRefer(weavers: map<WeaverId, Weaver>, userIds: set<UserId>) {
    && (forall w :: w in weavers ==> weavers[w].userId in userIds)
    && (forall w, v :: w in weavers && v in weavers && weavers[w].userId == weavers[v].userId ==> w == v)
  }

  ghost predicate UsersOk(s: Store) {
    NoEmptyUserId(s.users) && UniqueEmails(s.users)
  }

  ghost predicate AssociationsOk(s: Store) {
    AssociationsRefer(s.associations, s.users.Keys)
  }

  ghost predicate ApplicationsOk(s: Store) {
    ApplicationsRefer(s.applications, s.users.Keys, s.associations.Keys)
  }

  ghost predicate EventsOk(s: Store) {
    EventsRefer(s.events, s.associations.Keys)
  }

  ghost predicate RsvpsOk(s: Store) {
    RsvpsRefer(s.rsvps, s.events.Keys, s.users.Keys)
  }

  ghost predicate CheckinsOk(s: Store) {
    CheckinsRefer(s.checkins, s.events.Keys, s.users.Keys)
  }

  ghost predicate WeaversOk(s: Store) {
    WeaversRefer(s.weavers, s.users.Keys)
  }

  ghost predicate Valid(s: Store) {
    && UsersOk(s) && AssociationsOk(s) && ApplicationsOk(s) && EventsOk(s)
    && RsvpsOk(s) && CheckinsOk(s) && WeaversOk(s)
  }
}
