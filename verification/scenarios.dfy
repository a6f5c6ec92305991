/**
 * The seeded test world: a platform admin, an association admin who owns the
 * test association and is in its admin set, and a regular user with an
 * APPROVED, approved application to it, plus an event of that association and
 * weaver profiles for the regular user and the association admin. The lemmas
 * state who may do what there, and what kicking the regular user changes.
 */
module Scenarios {
  import opened Wrappers
  import opened Domain
  import opened AuthUtils
  import Middleware
  import EventRouter
  import AssociationRouter
  import ApplicationRouter
  import Text

  const Pa: UserId := "platform-admin"
  const Aa: UserId := "association-admin"
  const Ru: UserId := "regular-user"
  const Assoc: AssociationId := "test-association-1"
  const App: ApplicationId := "test-application-1"
  const Ev: EventId := "test-event-1"

  function Fixture(): Store {
    Store(
      map[Pa := Account("platform-admin@example.com", PlatformAdmin),
          Aa := Account("association-admin@example.com", AssociationAdmin),
          Ru := Account("user@example.com", User)],
      map[Assoc := Association(Aa, {Aa}, "Test Location", 5, AssociationRouter.DefaultMaxPopulation)],
      map[App := Application(Ru, Assoc, Approved, true, 0)],
      map[Ev := Event(Assoc, "Test Event", "Event Location", 1, 2, OnTime, None, None)],
      map[], map[],
      map["weaver-regular" := Weaver(Ru, "Regular User Location", 0),
          "weaver-admin" := Weaver(Aa, "Admin Location", 0)])
  }

  lemma FixtureIsValid()
    ensures Valid(Fixture())
  {
    FixtureKeysAreUnique();
    FixtureReferencesResolve();
  }

  /** Ids, emails and weaver users are unique in the fixture. */
  lemma FixtureKeysAreUnique()
    ensures UsersOk(Fixture()) && WeaversOk(Fixture())
  {
  }

  /** Every foreign key of the fixture points at a stored row. */
  lemma FixtureReferencesResolve()
    ensures AssociationsOk(Fixture()) && ApplicationsOk(Fixture()) && EventsOk(Fixture())
    ensures RsvpsOk(Fixture()) && CheckinsOk(Fixture())
  {
  }

  /** Who holds which authority in the fixture, and that nobody is an absent user. */
  lemma FixtureAuthority()
    ensures var s := Fixture();
      && IsAdminOfAssociation(s, Some(Pa), Assoc) && IsAdminOfAssociation(s, Some(Aa), Assoc)
      && !IsAdminOfAssociation(s, Some(Ru), Assoc)
      && IsAssociationMember(s, Some(Pa), Assoc) && IsAssociationMember(s, Some(Aa), Assoc)
      && IsAssociationMember(s, Some(Ru), Assoc)
      && CanManageEvent(s, Some(Aa), Ev) && !CanManageEvent(s, Some(Ru), Ev)
      && CanAttendEvent(s, Some(Ru), Ev)
      && !CanAttendEvent(s, None, Ev)
  {
    var s := Fixture();
    assert Qualifies(s.applications[App], Ru, Assoc);
  }

  /** The test URLs under /admin against the middleware: only the platform admin passes. */
  lemma FixtureAdminUrls()
    ensures Middleware.Decide("/admin", Some(User)) == Middleware.Unauthorized
    ensures Middleware.Decide("/admin", Some(AssociationAdmin)) == Middleware.Unauthorized
    ensures Middleware.Decide("/admin", Some(PlatformAdmin)) == Middleware.Next
  {
    assert Text.StartsWith("/admin", "/admin");
    Middleware.AdminPrefixRule("/admin", Some(User));
    Middleware.AdminPrefixRule("/admin", Some(AssociationAdmin));
    Middleware.AdminPrefixRule("/admin", Some(PlatformAdmin));
  }

  /** The other test URLs. The regular user reaches the association admin page at
      the middleware: nothing there guards it. */
  lemma FixtureMemberUrls()
    ensures Middleware.Decide("/weaver/register", None) == Middleware.Next
    ensures Middleware.Decide("/association/admin/" + Assoc, Some(User)) == Middleware.Next
  {
    assert Text.StartsWith("/weaver/register", "/weaver");
    Middleware.WeaverExceptionsAreExact("/weaver/register");
    Middleware.AssociationAdminUrls(Assoc, Some(User));
  }

  /** The regular user may RSVP; the owner may appoint the regular user admin, after
      which the regular user can manage the event; the regular user cannot withdraw
      the approved application. */
  lemma FixtureHandlers(now: Time)
    ensures EventRouter.CreateRsvp(Fixture(), Ru, EventRouter.RsvpInput(Ev, Yes, None, None), now).Ok?
    ensures var r := AssociationRouter.AddAdmin(Fixture(), Principal(Aa, AssociationAdmin), Assoc, Ru);
      r.Ok? && CanManageEvent(r.value.0, Some(Ru), Ev)
    ensures ApplicationRouter.Withdraw(Fixture(), Ru, App) == Err(Error(BadRequest, ApplicationRouter.CannotWithdraw))
  {
    FixtureAuthority();
  }

  /** Kicking a non-admin's only approved row of an association ends their membership. */
  lemma KickRevokesMembership(s: Store, id: ApplicationId)
    requires id in s.applications
    requires var app := s.applications[id];
      && !IsAdminOfAssociation(s, Some(app.userId), app.associationId)
      && forall other :: other in s.applications && other != id ==>
           !Qualifies(s.applications[other], app.userId, app.associationId)
    ensures var app := s.applications[id];
      var t := s.(applications := s.applications[id := app.(status := Kicked)]);
      !IsAssociationMember(t, Some(app.userId), app.associationId)
  {
  }

  /** In the fixture: once kicked, the regular user can no longer RSVP to the event. */
  lemma FixtureKick(now: Time)
    ensures var s := Fixture();
      var t := s.(applications := s.applications[App := s.applications[App].(status := Kicked)]);
      EventRouter.CreateRsvp(t, Ru, EventRouter.RsvpInput(Ev, Yes, None, None), now).Err?
  {
    var s := Fixture();
    assert s.applications.Keys == {App};
    KickRevokesMembership(s, App);
  }
}
