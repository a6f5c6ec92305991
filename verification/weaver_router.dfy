/**
 * The weaver router: applying for the single weaver profile a user may hold,
 * and reading the application status.
 */
module WeaverRouter {
  import opened Wrappers
  import opened Domain

  const AlreadyApplied := "You have already applied to be a weaver"

  /** The social handles and answers are validated but not stored. */
  datatype WeaverInput = WeaverInput(location: string, twitterHandle: Option<string>, discordUsername: Option<string>)

  predicate HasProfile(s: Store, u: UserId) {
    exists w :: w in s.weavers && s.weavers[w].userId == u
  }

  /** `newId` is the generated id, `now` the creation time. */
  function ApplyToBeWeaver(s: Store, actor: UserId, input: WeaverInput, newId: WeaverId, now: Time): (r: Result<(Store, Weaver), Error>)
    ensures |input.location| == 0 ==> r == Err(Error(BadRequest, InvalidInput))
    ensures |input.location| > 0 && HasProfile(s, actor) ==> r == Err(Error(InternalServerError, AlreadyApplied))
    ensures r.Ok? <==> |input.location| > 0 && !HasProfile(s, actor) && actor in s.users && newId !in s.weavers
    ensures r.Ok? ==>
      && r.value.1 == Weaver(actor, input.location, now)
      && r.value.0 == s.(weavers := s.weavers[newId := r.value.1])
  {
    if |input.location| == 0 then Err(Error(BadRequest, InvalidInput))
    else if HasProfile(s, actor) then Err(Error(InternalServerError, AlreadyApplied))
    else if actor !in s.users || newId in s.weavers then Err(Error(InternalServerError, WriteRejected))
    else
      var w := Weaver(actor, input.location, now);
      Ok((s.(weavers := s.weavers[newId := w]), w))
  }

  lemma {:induction false} ApplyPreservesValid(s: Store, actor: UserId, input: WeaverInput, newId: WeaverId, now: Time)
    requires Valid(s) && ApplyToBeWeaver(s, actor, input, newId, now).Ok?
    ensures Valid(ApplyToBeWeaver(s, actor, input, newId, now).value.0)
    ensures HasProfile(ApplyToBeWeaver(s, actor, input, newId, now).value.0, actor)
  {
    var t := ApplyToBeWeaver(s, actor, input, newId, now).value.0;
    assert t.weavers[newId].userId == actor;
  }

  /** One call to `applyToBeWeaver` with its generated id and time. */
  datatype Call = Call(actor: UserId, input: WeaverInput, newId: WeaverId, now: Time)

  /** Runs the calls in order; a failing call leaves the store as it was. */
  function ApplyAll(s: Store, calls: seq<Call>): Store
    decreases |calls|
  {
    if |calls| == 0 then s
    else
      var c := calls[0];
      match ApplyToBeWeaver(s, c.actor, c.input, c.newId, c.now)
      case Ok((t, _)) => ApplyAll(t, calls[1..])
      case Err(_) => ApplyAll(s, calls[1..])
  }

  /** At most one weaver profile per user, across any sequence of applications. */
  lemma {:induction false} OneProfilePerUser(s: Store, calls: seq<Call>)
    requires Valid(s)
    ensures Valid(ApplyAll(s, calls))
    ensures var t := ApplyAll(s, calls);
      forall w, v :: w in t.weavers && v in t.weavers && t.weavers[w].userId == t.weavers[v].userId ==> w == v
    decreases |calls|
  {
    if |calls| > 0 {
      var c := calls[0];
      var r := ApplyToBeWeaver(s, c.actor, c.input, c.newId, c.now);
      if r.Ok? {
        ApplyPreservesValid(s, c.actor, c.input, c.newId, c.now);
        OneProfilePerUser(r.value.0, calls[1..]);
      } else {
        OneProfilePerUser(s, calls[1..]);
      }
    }
  }

  /** What `getApplicationStatus` returns. */
  datatype StatusReply = StatusReply(status: string, createdAt: Option<Time>)

  const NotApplied := "NOT_APPLIED"

  /** NOT_APPLIED without a profile; otherwise NEW with the profile's creation time. */
  function GetApplicationStatus(s: Store, actor: UserId): (r: StatusReply)
    requires WeaversOk(s)
    ensures !HasProfile(s, actor) <==> r == StatusReply(NotApplied, None)
    ensures HasProfile(s, actor) ==>
      r.status == "NEW" && r.createdAt.Some? &&
      exists w :: w in s.weavers && s.weavers[w].userId == actor && s.weavers[w].createdAt == r.createdAt.value
  {
    if HasProfile(s, actor) then
      var w :| w in s.weavers && s.weavers[w].userId == actor;
      StatusReply("NEW", Some(s.weavers[w].createdAt))
    else StatusReply(NotApplied, None)
  }
}
