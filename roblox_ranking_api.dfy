/** The role resolver: the group's roles are listed once and cached for the
    life of the process, a numeric rank is mapped to the first role with that
    rank, and the user's membership is updated to that role.

    The two upstream calls (list the group's roles, update a membership) are
    not modelled; each operation is given, as a parameter, what that call
    would do if it were made: return a value, or throw. Ghost logs record
    which calls were actually made. */
module RobloxRankingApi {
  import opened Wrappers

  /** A role of the group as the upstream lists it; `name` is the role's
      resource path, which the membership update takes as the role id. */
  datatype Role = Role(name: string, rank: int, displayName: string)

  /** The role record the upstream returns after a membership update. */
  datatype MembershipRole = MembershipRole(displayName: string, rank: int)

  /** What an upstream call does: return a value, or throw. A thrown value
      that is not an `Error` carries no message. */
  datatype Upstream<T> = Returned(value: T) | Threw(message: Option<string>)

  /** The ways the resolver fails, one per error it throws. */
  datatype RankError =
    | GroupIdMissing
    | RolesFetchFailed
    | InvalidRankValue
    | RoleNotFound(rankValue: int)
    | UpdateFailed(detail: string)

  datatype Result<T> = Ok(value: T) | Err(error: RankError)

  /** One membership update sent upstream. */
  datatype UpdateCall = UpdateCall(groupId: string, userId: string, roleId: string)

  const MinRank := 0
  const MaxRank := 255

  /** The detail an update failure carries when the thrown value has no message. */
  const UnknownError := "Unknown error"

  /** The group id is configured: set and not empty (an empty variable is falsy). */
  predicate GroupIdSet(groupId: Option<string>)
  {
    groupId.Some? && groupId.value != ""
  }

  predicate RankInRange(rankValue: int)
  {
    MinRank <= rankValue <= MaxRank
  }

  // ---------------------------------------------------------------------------
  // Rank lookup
  // ---------------------------------------------------------------------------

  /** The position of the first role with the given rank, or |roles| if none has it. */
  function FirstIndexOfRank(roles: seq<Role>, rankValue: int): (i: nat)
    ensures i <= |roles|
    ensures i < |roles| ==> roles[i].rank == rankValue
    ensures forall j :: 0 <= j < i ==> roles[j].rank != rankValue
  {
    if |roles| == 0 then 0
    else if roles[0].rank == rankValue then 0
    else 1 + FirstIndexOfRank(roles[1..], rankValue)
  }

  /** `roles.find(role => role.rank === rankValue)`: the first role, in list
      order, whose rank is `rankValue`; None exactly when no role has it. */
  function FindByRank(roles: seq<Role>, rankValue: int): (found: Option<Role>)
    ensures found.None? <==> forall j :: 0 <= j < |roles| ==> roles[j].rank != rankValue
    ensures found.Some? ==> found.value.rank == rankValue
    ensures found.Some? ==>
      exists i :: 0 <= i < |roles| && roles[i] == found.value && forall j :: 0 <= j < i ==> roles[j].rank != rankValue
  {
    var i := FirstIndexOfRank(roles, rankValue);
    if i < |roles| then Some(roles[i]) else None
  }

  /** Roles listed after the first match never change the lookup. */
  lemma {:induction false} FindByRankIgnoresLaterRoles(roles: seq<Role>, more: seq<Role>, rankValue: int)
    requires FindByRank(roles, rankValue).Some?
    ensures FindByRank(roles + more, rankValue) == FindByRank(roles, rankValue)
  {
    if roles[0].rank != rankValue {
      assert (roles + more)[1..] == roles[1..] + more;
      FindByRankIgnoresLaterRoles(roles[1..], more, rankValue);
    }
  }

  // ---------------------------------------------------------------------------
  // The operations as functions of the cache and the upstream outcomes
  // ---------------------------------------------------------------------------

  /** The result of a fetch, the cache after it, and the list calls it made
      (true: the call returned roles; false: it threw). */
  datatype FetchStep = FetchStep(result: Result<seq<Role>>, cache: Option<seq<Role>>, listCalls: seq<bool>)

  /** fetchAndCacheGroupRoles: fail on a missing group id before anything
      else; serve a populated cache without calling upstream; otherwise list
      the roles, caching them only when the call returns. */
  function Fetch(groupId: Option<string>, cache: Option<seq<Role>>, listing: Upstream<seq<Role>>): (s: FetchStep)
    ensures !GroupIdSet(groupId) ==> s == FetchStep(Err(GroupIdMissing), cache, [])
    ensures GroupIdSet(groupId) && cache.Some? ==> s == FetchStep(Ok(cache.value), cache, [])
    ensures s.listCalls != [] <==> GroupIdSet(groupId) && cache.None?
    ensures |s.listCalls| <= 1
    ensures s.result.Ok? ==> s.cache == Some(s.result.value)
    ensures s.result.Err? ==> s.cache == cache
    ensures cache.Some? ==> s.cache == cache
    ensures s.listCalls == [true] <==> cache.None? && s.cache.Some?
    ensures s.listCalls == [true] ==> listing.Returned? && s.result == Ok(listing.value)
    ensures s.listCalls == [false] ==> s.result == Err(RolesFetchFailed)
    ensures s.listCalls != [] ==> s.listCalls == [listing.Returned?]
    ensures GroupIdSet(groupId) && cache.None? && listing.Returned? ==>
      s == FetchStep(Ok(listing.value), Some(listing.value), [true])
  {
    if !GroupIdSet(groupId) then FetchStep(Err(GroupIdMissing), cache, [])
    else if cache.Some? then FetchStep(Ok(cache.value), cache, [])
    else match listing
      case Returned(roles) => FetchStep(Ok(roles), Some(roles), [true])
      case Threw(_) => FetchStep(Err(RolesFetchFailed), None, [false])
  }

  datatype ResolveStep = ResolveStep(result: Result<string>, cache: Option<seq<Role>>, listCalls: seq<bool>)

  /** getRoleFromRankValue: fetch (or reuse) the roles, then take the name of
      the first role with the requested rank. */
  function Resolve(groupId: Option<string>, cache: Option<seq<Role>>, listing: Upstream<seq<Role>>, rankValue: int): (s: ResolveStep)
    ensures s.cache == Fetch(groupId, cache, listing).cache
    ensures s.listCalls == Fetch(groupId, cache, listing).listCalls
    ensures Fetch(groupId, cache, listing).result.Err? ==> s.result == Err(Fetch(groupId, cache, listing).result.error)
    ensures s.result.Ok? ==>
      GroupIdSet(groupId) && s.cache.Some? &&
      exists i :: 0 <= i < |s.cache.value| && s.cache.value[i].rank == rankValue && s.cache.value[i].name == s.result.value &&
        forall j :: 0 <= j < i ==> s.cache.value[j].rank != rankValue
    ensures s.result == Err(RoleNotFound(rankValue)) <==>
      GroupIdSet(groupId) && s.cache.Some? && forall j :: 0 <= j < |s.cache.value| ==> s.cache.value[j].rank != rankValue
    ensures (GroupIdSet(groupId) && s.cache.Some? &&
             exists j :: 0 <= j < |s.cache.value| && s.cache.value[j].rank == rankValue) ==>
      s.result == Ok(FindByRank(s.cache.value, rankValue).value.name)
  {
    var f := Fetch(groupId, cache, listing);
    if f.result.Err? then ResolveStep(Err(f.result.error), f.cache, f.listCalls)
    else match FindByRank(f.result.value, rankValue)
      case None => ResolveStep(Err(RoleNotFound(rankValue)), f.cache, f.listCalls)
      case Some(role) => ResolveStep(Ok(role.name), f.cache, f.listCalls)
  }

  datatype UpdateStep = UpdateStep(result: Result<MembershipRole>, updateCalls: seq<UpdateCall>)

  /** updateGroupRank: fail on a missing group id without calling upstream;
      otherwise send one update and return the role it reports, or wrap the
      error it throws. */
  function Update(groupId: Option<string>, userId: string, roleId: string, updating: Upstream<MembershipRole>): (s: UpdateStep)
    ensures !GroupIdSet(groupId) ==> s == UpdateStep(Err(GroupIdMissing), [])
    ensures GroupIdSet(groupId) ==> s.updateCalls == [UpdateCall(groupId.value, userId, roleId)]
    ensures s.result.Ok? <==> GroupIdSet(groupId) && updating.Returned?
    ensures s.result.Ok? ==> s.result.value == updating.value
    ensures GroupIdSet(groupId) && updating.Threw? ==>
      s.result == Err(UpdateFailed(if updating.message.Some? then updating.message.value else UnknownError))
  {
    if !GroupIdSet(groupId) then UpdateStep(Err(GroupIdMissing), [])
    else
      var call := [UpdateCall(groupId.value, userId, roleId)];
      match updating
      case Returned(role) => UpdateStep(Ok(role), call)
      case Threw(message) =>
        UpdateStep(Err(UpdateFailed(if message.Some? then message.value else UnknownError)), call)
  }

  datatype SetRankStep = SetRankStep(
    result: Result<MembershipRole>, cache: Option<seq<Role>>, listCalls: seq<bool>, updateCalls: seq<UpdateCall>)

  /** setRankByRankValue: range-check the rank before anything else, resolve
      it to a role name, then update the membership to that role. */
  function SetRank(groupId: Option<string>, cache: Option<seq<Role>>, userId: string, rankValue: int,
                   listing: Upstream<seq<Role>>, updating: Upstream<MembershipRole>): (s: SetRankStep)
    ensures !RankInRange(rankValue) ==> s == SetRankStep(Err(InvalidRankValue), cache, [], [])
    ensures RankInRange(rankValue) ==>
      s.cache == Fetch(groupId, cache, listing).cache && s.listCalls == Fetch(groupId, cache, listing).listCalls
    ensures s.updateCalls != [] <==> RankInRange(rankValue) && Resolve(groupId, cache, listing, rankValue).result.Ok?
    ensures s.updateCalls != [] ==>
      s.cache.Some? && FindByRank(s.cache.value, rankValue).Some? &&
      s.updateCalls == [UpdateCall(groupId.value, userId, FindByRank(s.cache.value, rankValue).value.name)]
    ensures RankInRange(rankValue) && Resolve(groupId, cache, listing, rankValue).result.Err? ==>
      s.result == Err(Resolve(groupId, cache, listing, rankValue).result.error)
    ensures s.updateCalls != [] ==>
      s.result == Update(groupId, userId, Resolve(groupId, cache, listing, rankValue).result.value, updating).result
    ensures s.result.Ok? <==> s.updateCalls != [] && updating.Returned?
    ensures s.result.Ok? ==> s.result.value == updating.value
  {
    if !RankInRange(rankValue) then SetRankStep(Err(InvalidRankValue), cache, [], [])
    else
      var r := Resolve(groupId, cache, listing, rankValue);
      if r.result.Err? then SetRankStep(Err(r.result.error), r.cache, r.listCalls, [])
      else
        var u := Update(groupId, userId, r.result.value, updating);
        SetRankStep(u.result, r.cache, r.listCalls, u.updateCalls)
  }

  // ---------------------------------------------------------------------------
  // The cache's lifecycle
  // ---------------------------------------------------------------------------

  /** What the cache and the log of list calls can look like: no call is made
      without a group id; every list call but the last one threw; and the
      cache is populated exactly when the last list call returned. */
  ghost predicate CacheHistory(groupId: Option<string>, cache: Option<seq<Role>>, listCalls: seq<bool>)
  {
    (!GroupIdSet(groupId) ==> listCalls == [] && cache.None?) &&
    (cache.None? ==> true !in listCalls) &&
    (cache.Some? ==> |listCalls| > 0 && listCalls[|listCalls| - 1] && true !in listCalls[..|listCalls| - 1])
  }

  lemma FetchKeepsHistory(groupId: Option<string>, cache: Option<seq<Role>>, log: seq<bool>, listing: Upstream<seq<Role>>)
    requires CacheHistory(groupId, cache, log)
    ensures CacheHistory(groupId, Fetch(groupId, cache, listing).cache, log + Fetch(groupId, cache, listing).listCalls)
  {
    var s := Fetch(groupId, cache, listing);
    if s.listCalls == [] {
      assert log + s.listCalls == log;
    }
  }

  lemma SetRankKeepsHistory(groupId: Option<string>, cache: Option<seq<Role>>, log: seq<bool>, c: RankCall)
    requires CacheHistory(groupId, cache, log)
    ensures var s := SetRank(groupId, cache, c.userId, c.rankValue, c.listing, c.updating);
      CacheHistory(groupId, s.cache, log + s.listCalls)
  {
    var s := SetRank(groupId, cache, c.userId, c.rankValue, c.listing, c.updating);
    if RankInRange(c.rankValue) {
      var f := Fetch(groupId, cache, c.listing);
      FetchKeepsHistory(groupId, cache, log, c.listing);
      assert s.cache == f.cache && s.listCalls == f.listCalls;
    } else {
      assert s.cache == cache && s.listCalls == [];
      assert log + s.listCalls == log;
    }
  }

  /** With the group id set and the cache empty, a listing that upstream
      returns is cached exactly and returned, after one list call. */
  lemma ListingIsCached(groupId: Option<string>, roles: seq<Role>)
    requires GroupIdSet(groupId)
    ensures Fetch(groupId, None, Returned(roles)) == FetchStep(Ok(roles), Some(roles), [true])
  {
  }

  /** Once the roles are cached, later fetches return exactly them, leave the
      cache alone and call nothing upstream, whatever upstream would do. */
  lemma CachedRolesAreServed(groupId: Option<string>, roles: seq<Role>, listing: Upstream<seq<Role>>)
    requires GroupIdSet(groupId)
    ensures Fetch(groupId, Some(roles), listing) == FetchStep(Ok(roles), Some(roles), [])
  {
  }

  /** Two successful resolutions, for any two ranks, list the roles at most once. */
  lemma TwoResolutionsListOnce(groupId: Option<string>, cache: Option<seq<Role>>, rank1: int, rank2: int,
                               listing1: Upstream<seq<Role>>, listing2: Upstream<seq<Role>>)
    requires Resolve(groupId, cache, listing1, rank1).result.Ok?
    ensures var first := Resolve(groupId, cache, listing1, rank1);
      var second := Resolve(groupId, first.cache, listing2, rank2);
      second.listCalls == [] && second.cache == first.cache && |first.listCalls + second.listCalls| <= 1
  {
  }

  /** A fetch whose list call throws leaves the cache empty, so the next fetch
      calls upstream again: a failure never poisons the cache. */
  lemma FailedFetchIsRetried(groupId: Option<string>, failed: Upstream<seq<Role>>, next: Upstream<seq<Role>>)
    requires GroupIdSet(groupId) && failed.Threw?
    ensures Fetch(groupId, None, failed).cache == None
    ensures Fetch(groupId, Fetch(groupId, None, failed).cache, next).listCalls == [next.Returned?]
  {
  }

  /** One call of setRankByRankValue with the upstream outcomes it would meet. */
  datatype RankCall = RankCall(userId: string, rankValue: int, listing: Upstream<seq<Role>>, updating: Upstream<MembershipRole>)

  /** The cache and call logs after a sequence of setRankByRankValue calls, made one after another. */
  datatype Trace = Trace(results: seq<Result<MembershipRole>>, cache: Option<seq<Role>>, listCalls: seq<bool>, updateCalls: seq<UpdateCall>)

  ghost function Replay(groupId: Option<string>, cache: Option<seq<Role>>, calls: seq<RankCall>): (t: Trace)
    decreases |calls|
  {
    if calls == [] then Trace([], cache, [], [])
    else
      var c := calls[0];
      var s := SetRank(groupId, cache, c.userId, c.rankValue, c.listing, c.updating);
      var t := Replay(groupId, s.cache, calls[1..]);
      Trace([s.result] + t.results, t.cache, s.listCalls + t.listCalls, s.updateCalls + t.updateCalls)
  }

  /** The cache history depends only on the log, not on how it was put together. */
  lemma HistoryRegrouped(groupId: Option<string>, cache: Option<seq<Role>>, log: seq<bool>, made: seq<bool>, rest: seq<bool>)
    requires CacheHistory(groupId, cache, (log + made) + rest)
    ensures CacheHistory(groupId, cache, log + (made + rest))
  {
    assert (log + made) + rest == log + (made + rest);
  }

  /** The first of a sequence of calls keeps the cache history well formed,
      and the rest of the sequence starts from the cache it leaves. */
  lemma FirstCallKeepsHistory(groupId: Option<string>, cache: Option<seq<Role>>, log: seq<bool>, calls: seq<RankCall>)
    returns (cache': Option<seq<Role>>, made: seq<bool>)
    requires calls != [] && CacheHistory(groupId, cache, log)
    ensures CacheHistory(groupId, cache', log + made)
    ensures Replay(groupId, cache, calls).cache == Replay(groupId, cache', calls[1..]).cache
    ensures Replay(groupId, cache, calls).listCalls == made + Replay(groupId, cache', calls[1..]).listCalls
  {
    var c := calls[0];
    var s := SetRank(groupId, cache, c.userId, c.rankValue, c.listing, c.updating);
    SetRankKeepsHistory(groupId, cache, log, c);
    cache', made := s.cache, s.listCalls;
  }

  /** Once populated, the cache is final: no sequence of later calls lists the
      roles again or changes what is cached, so an upstream change of roles is
      not seen until the process restarts. */
  lemma {:induction false} CachedRolesAreFinal(groupId: Option<string>, roles: seq<Role>, calls: seq<RankCall>)
    ensures Replay(groupId, Some(roles), calls).cache == Some(roles)
    ensures Replay(groupId, Some(roles), calls).listCalls == []
    decreases |calls|
  {
    if calls != [] {
      CachedRolesAreFinal(groupId, roles, calls[1..]);
    }
  }

  /** Every sequence of calls keeps the cache's history well formed. */
  lemma {:induction false} ReplayKeepsHistory(groupId: Option<string>, cache: Option<seq<Role>>, log: seq<bool>, calls: seq<RankCall>)
    requires CacheHistory(groupId, cache, log)
    ensures CacheHistory(groupId, Replay(groupId, cache, calls).cache, log + Replay(groupId, cache, calls).listCalls)
    decreases |calls|
  {
    if calls != [] {
      var cache', made := FirstCallKeepsHistory(groupId, cache, log, calls);
      ReplayKeepsHistory(groupId, cache', log + made, calls[1..]);
      HistoryRegrouped(groupId, Replay(groupId, cache', calls[1..]).cache, log, made, Replay(groupId, cache', calls[1..]).listCalls);
    }
  }

  /** From process start, over any sequence of calls, the roles are listed
      until the first list call that returns and never after it: every list
      call except possibly the last one threw. */
  lemma ListedAtMostOnceSuccessfully(groupId: Option<string>, calls: seq<RankCall>)
    ensures var log := Replay(groupId, None, calls).listCalls;
      forall i :: 0 <= i < |log| - 1 ==> !log[i]
    ensures !GroupIdSet(groupId) ==> Replay(groupId, None, calls).listCalls == []
  {
    ReplayKeepsHistory(groupId, None, [], calls);
    assert [] + Replay(groupId, None, calls).listCalls == Replay(groupId, None, calls).listCalls;
  }

  // ---------------------------------------------------------------------------
  // The module state and the operations that use it
  // ---------------------------------------------------------------------------

  /** The module-level role cache and the configured group id. `listCalls`
      and `updateCalls` log the upstream calls made through this object. */
  class RoleResolver {
    const groupId: Option<string>
    var cachedGroupRoles: Option<seq<Role>>
    ghost var listCalls: seq<bool>
    ghost var updateCalls: seq<UpdateCall>

    ghost predicate Valid()
      reads this
    {
      CacheHistory(groupId, cachedGroupRoles, listCalls)
    }

    /** The process starts with an empty cache and no calls made. */
    constructor (groupId: Option<string>)
      ensures Valid()
      ensures this.groupId == groupId && cachedGroupRoles == None
      ensures listCalls == [] && updateCalls == []
    {
      this.groupId := groupId;
      cachedGroupRoles := None;
      listCalls := [];
      updateCalls := [];
    }

    method FetchAndCacheGroupRoles(listing: Upstream<seq<Role>>) returns (roles: Result<seq<Role>>)
      requires Valid()
      modifies this
      ensures Valid()
      ensures var s := Fetch(groupId, old(cachedGroupRoles), listing);
        roles == s.result && cachedGroupRoles == s.cache && listCalls == old(listCalls) + s.listCalls
      ensures updateCalls == old(updateCalls)
    {
      FetchKeepsHistory(groupId, cachedGroupRoles, listCalls, listing);
      if !GroupIdSet(groupId) {
        return Err(GroupIdMissing);
      }
      if cachedGroupRoles.Some? {
        return Ok(cachedGroupRoles.value);
      }
      match listing {
        case Returned(listed) =>
          listCalls := listCalls + [true];
          cachedGroupRoles := Some(listed);
          roles := Ok(listed);
        case Threw(_) =>
          listCalls := listCalls + [false];
          roles := Err(RolesFetchFailed);
      }
    }

    method GetRoleFromRankValue(rankValue: int, listing: Upstream<seq<Role>>) returns (roleName: Result<string>)
      requires Valid()
      modifies this
      ensures Valid()
      ensures var s := Resolve(groupId, old(cachedGroupRoles), listing, rankValue);
        roleName == s.result && cachedGroupRoles == s.cache && listCalls == old(listCalls) + s.listCalls
      ensures updateCalls == old(updateCalls)
    {
      var roles := FetchAndCacheGroupRoles(listing);
      if roles.Err? {
        return Err(roles.error);
      }
      var target := FindByRank(roles.value, rankValue);
      if target.None? {
        return Err(RoleNotFound(rankValue));
      }
      roleName := Ok(target.value.name);
    }

    method SetRankByRankValue(userId: string, rankValue: int, listing: Upstream<seq<Role>>, updating: Upstream<MembershipRole>)
      returns (role: Result<MembershipRole>)
      requires Valid()
      modifies this
      ensures Valid()
      ensures var s := SetRank(groupId, old(cachedGroupRoles), userId, rankValue, listing, updating);
        role == s.result && cachedGroupRoles == s.cache &&
        listCalls == old(listCalls) + s.listCalls && updateCalls == old(updateCalls) + s.updateCalls
    {
      if rankValue < MinRank || rankValue > MaxRank {
        return Err(InvalidRankValue);
      }
      var targetRolePath := GetRoleFromRankValue(rankValue, listing);
      if targetRolePath.Err? {
        return Err(targetRolePath.error);
      }
      role := UpdateGroupRank(userId, targetRolePath.value, updating);
    }

    method UpdateGroupRank(userId: string, roleId: string, updating: Upstream<MembershipRole>) returns (role: Result<MembershipRole>)
      modifies this`updateCalls
      ensures var s := Update(groupId, userId, roleId, updating);
        role == s.result && updateCalls == old(updateCalls) + s.updateCalls
    {
      if !GroupIdSet(groupId) {
        return Err(GroupIdMissing);
      }
      updateCalls := updateCalls + [UpdateCall(groupId.value, userId, roleId)];
      match updating {
        case Returned(updated) =>
          role := Ok(updated);
        case Threw(message) =>
          role := Err(UpdateFailed(if message.Some? then message.value else UnknownError));
      }
    }
  }
}
