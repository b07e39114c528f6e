/** The ranking gateway: `POST /rank-user` behind a bearer-secret check.
    Per request: authorize (401), validate the body (400), rank the user
    through the resolver, and answer 200 with the new role or 500 with the
    error. The server secret and the Authorization header are parameters. */
module Server {
  import opened Wrappers
  import opened JsValues
  import opened RobloxRankingApi

  const BearerPrefix := "Bearer "

  /** The server secret is configured: set and not empty. */
  predicate SecretSet(secret: Option<string>)
  {
    secret.Some? && secret.value != ""
  }

  /** authorizeRequest: fail closed. Without a configured secret nothing is
      authorized; with one, exactly the header `Bearer <secret>` is. */
  function Authorize(secret: Option<string>, header: Option<string>): (authorized: bool)
    ensures !SecretSet(secret) ==> !authorized
    ensures authorized ==>
      header.Some? && |header.value| >= |BearerPrefix| &&
      header.value[..|BearerPrefix|] == BearerPrefix && header.value[|BearerPrefix|..] == secret.value
    ensures SecretSet(secret) && header == Some(BearerPrefix + secret.value) ==> authorized
  {
    SecretSet(secret) && header == Some(BearerPrefix + secret.value)
  }

  /** The body check: a truthy `userId` and a `rankValue` of type number. */
  predicate ParamsValid(userId: JsValue, rankValue: JsValue)
  {
    Truthy(userId) && rankValue.Number?
  }

  /** The `data` of a successful response. */
  datatype RankedUser = RankedUser(userId: string, displayName: string, rank: int)

  /** Why a request was refused; the error strings are not modelled. */
  datatype Failure = Unauthorized | MissingParameters | RankingFailed(cause: RankError)

  datatype Body = Ranked(data: RankedUser) | Failed(failure: Failure)

  /** A response: its status and its JSON body; `success` is true exactly for a `Ranked` body. */
  datatype Response = Response(status: int, body: Body)
  {
    predicate Success()
    {
      body.Ranked?
    }
  }

  /** The checks before the resolver is reached: the response they give, or
      None when the request goes on to be ranked. */
  function Gate(secret: Option<string>, header: Option<string>, userId: JsValue, rankValue: JsValue): (rejected: Option<Response>)
    ensures rejected.None? <==> Authorize(secret, header) && ParamsValid(userId, rankValue)
    ensures !Authorize(secret, header) ==> rejected == Some(Response(401, Failed(Unauthorized)))
    ensures Authorize(secret, header) && !ParamsValid(userId, rankValue) ==>
      rejected == Some(Response(400, Failed(MissingParameters)))
  {
    if !Authorize(secret, header) then Some(Response(401, Failed(Unauthorized)))
    else if !Truthy(userId) || !rankValue.Number? then Some(Response(400, Failed(MissingParameters)))
    else None
  }

  /** The response to a request that reached the resolver: 200 with the
      string form of the user id and the returned role, or 500 with the error. */
  function Reply(userId: JsValue, outcome: Result<MembershipRole>): (resp: Response)
    ensures resp.Success() <==> outcome.Ok?
    ensures outcome.Ok? ==>
      resp == Response(200, Ranked(RankedUser(JsString(userId), outcome.value.displayName, outcome.value.rank)))
    ensures outcome.Err? ==> resp == Response(500, Failed(RankingFailed(outcome.error)))
  {
    match outcome
    case Ok(role) => Response(200, Ranked(RankedUser(JsString(userId), role.displayName, role.rank)))
    case Err(e) => Response(500, Failed(RankingFailed(e)))
  }

  /** The whole decision for one request, given what the resolver would
      return: exactly one of 401, 400, 200 and 500, in that precedence. */
  function Respond(secret: Option<string>, header: Option<string>, userId: JsValue, rankValue: JsValue,
                   outcome: Result<MembershipRole>): (resp: Response)
    ensures resp.status == 401 || resp.status == 400 || resp.status == 200 || resp.status == 500
    ensures resp.status == 401 <==> !Authorize(secret, header)
    ensures resp.status == 400 <==> Authorize(secret, header) && !ParamsValid(userId, rankValue)
    ensures resp.status == 200 <==> Authorize(secret, header) && ParamsValid(userId, rankValue) && outcome.Ok?
    ensures resp.status == 500 <==> Authorize(secret, header) && ParamsValid(userId, rankValue) && outcome.Err?
    ensures resp.Success() <==> resp.status == 200
    ensures !SecretSet(secret) ==> resp == Response(401, Failed(Unauthorized))
    ensures resp.status == 200 ==>
      resp.body.data == RankedUser(JsString(userId), outcome.value.displayName, outcome.value.rank) &&
      resp.body.data.userId != ""
    ensures resp.status == 500 ==> resp.body == Failed(RankingFailed(outcome.error))
  {
    match Gate(secret, header, userId, rankValue)
    case Some(rejected) => rejected
    case None => Reply(userId, outcome)
  }

  /** A request refused at the gate gets the same response whatever the
      resolver would have done: authorization and validation short-circuit. */
  lemma RejectionIgnoresResolver(secret: Option<string>, header: Option<string>, userId: JsValue, rankValue: JsValue,
                                 outcome1: Result<MembershipRole>, outcome2: Result<MembershipRole>)
    requires !(Authorize(secret, header) && ParamsValid(userId, rankValue))
    ensures Respond(secret, header, userId, rankValue, outcome1) == Respond(secret, header, userId, rankValue, outcome2)
  {
  }

  /** The `/rank-user` route with the authorization middleware in front of it. */
  method HandleRankUser(resolver: RoleResolver, secret: Option<string>, header: Option<string>,
                        userId: JsValue, rankValue: JsValue,
                        listing: Upstream<seq<Role>>, updating: Upstream<MembershipRole>) returns (resp: Response)
    requires resolver.Valid()
    modifies resolver
    ensures resolver.Valid()
    ensures Gate(secret, header, userId, rankValue).Some? ==>
      resp == Gate(secret, header, userId, rankValue).value && unchanged(resolver)
    ensures Gate(secret, header, userId, rankValue).None? ==>
      var s := SetRank(resolver.groupId, old(resolver.cachedGroupRoles), JsString(userId), rankValue.n, listing, updating);
      resp == Respond(secret, header, userId, rankValue, s.result) &&
      resolver.cachedGroupRoles == s.cache &&
      resolver.listCalls == old(resolver.listCalls) + s.listCalls &&
      resolver.updateCalls == old(resolver.updateCalls) + s.updateCalls
  {
    var rejected := Gate(secret, header, userId, rankValue);
    if rejected.Some? {
      return rejected.value;
    }
    var newRole := resolver.SetRankByRankValue(JsString(userId), rankValue.n, listing, updating);
    resp := Reply(userId, newRole);
  }

  /** An authorized request for rank 50 on a fresh process, when the group
      lists a role of rank 50 and the update returns it, is answered 200 with
      that role's display name and rank. */
  lemma RankFiftyScenario(secret: string)
    requires secret != ""
    ensures var roles := [Role("groups/7/roles/50", 50, "Member")];
      var s := SetRank(Some("7"), None, "123", 50, Returned(roles), Returned(MembershipRole("Member", 50)));
      s.updateCalls == [UpdateCall("7", "123", "groups/7/roles/50")] && s.cache == Some(roles) &&
      Respond(Some(secret), Some(BearerPrefix + secret), Str("123"), Number(50), s.result)
        == Response(200, Ranked(RankedUser("123", "Member", 50)))
  {
  }

  /** A rank outside 0..255 is answered 500 without listing roles or updating anyone. */
  lemma OutOfRangeScenario(secret: string, cache: Option<seq<Role>>, listing: Upstream<seq<Role>>, updating: Upstream<MembershipRole>)
    requires secret != ""
    ensures var s := SetRank(Some("7"), cache, "123", 999, listing, updating);
      s.listCalls == [] && s.updateCalls == [] && s.cache == cache &&
      Respond(Some(secret), Some(BearerPrefix + secret), Str("123"), Number(999), s.result)
        == Response(500, Failed(RankingFailed(InvalidRankValue)))
  {
  }
}
