# Rank gateway: a verified model

This project models the core of a small ranking service. It has one HTTP
endpoint, `POST /rank-user`. The endpoint turns a numeric group rank (0 to
255) into a group role and assigns that role to a user through an external
group-management API.

The model has two parts:

- **The role resolver** (`roblox_ranking_api.dfy`, module `RobloxRankingApi`).
  The process-wide role cache is the field `cachedGroupRoles` of the class
  `RoleResolver`. It starts empty. Only a list call that returns fills it, and
  after that it is served without calling upstream. A rank is resolved to the
  `name` of the first listed role with that rank. `setRankByRankValue`
  range-checks the rank, resolves it, and sends the membership update.
  Each operation is also a pure function of the cache and the upstream
  outcomes (`Fetch`, `Resolve`, `Update`, `SetRank`). The class's methods are
  proved equal to these functions. The cache's lifecycle is proved about the
  functions: populated once, never refreshed, retried after a failure.
- **The gateway** (`server.dfy`, module `Server`). The bearer-secret check
  fails closed and gives 401. Body validation gives 400. The resolver's
  outcome gives 200 with `{userId, displayName, rank}`, or 500 with the error
  kind. `Respond` is the whole per-request decision as one function.
  `HandleRankUser` is the route as a method that drives a `RoleResolver`.

`js_values.dfy` (module `JsValues`) holds the JavaScript semantics the gateway
relies on: the falsy values, and `String(v)` of a body field. For integers
this includes a decimal printer and a proved reader that inverts it.
`wrappers.dfy` holds `Option`.

The external API is not modelled. Each call is replaced by a parameter of
type `Upstream<T>`, which says what the call would do if made: return a value
or throw. The ghost logs `listCalls` and `updateCalls` record which calls were
actually made. With these logs, "no fetch", "no update" and "at most one
successful fetch" become statements about the model. The group id and the
server secret are parameters of type `Option<string>`. "Unset" means absent
or empty, matching the JavaScript falsiness test the source uses.

Two points where the source's comments and its code could be read
differently; the model follows the code:

- `getRoleFromRankValue` is documented as looking up "the full Role ID path"
  (RobloxRankingAPI.ts:42). What it returns is the matched role's `name`
  (RobloxRankingAPI.ts:53), and `updateGroupRank` takes that string as its
  `roleId` (RobloxRankingAPI.ts:75). The model resolves a rank to the role's
  `name` and sends it as the role id.
- At call time only the group id is checked (RobloxRankingAPI.ts:23, 76). A
  missing API key is never checked by the core. It shows up as an upstream
  call that throws, which the `Upstream` parameter covers.

## Model

| member | source | states |
|---|---|---|
| `RobloxRankingApi.FirstIndexOfRank` | RobloxRankingAPI.ts:47 | the position of the first role whose rank equals the requested value, or the list length when no role has it; every earlier role has a different rank |
| `RobloxRankingApi.FindByRank` | RobloxRankingAPI.ts:47-51 | `find` returns nothing exactly when no role has the rank; otherwise it returns a role with that rank, found in the list with no earlier role of that rank |
| `RobloxRankingApi.FindByRankIgnoresLaterRoles` | RobloxRankingAPI.ts:47 | first-match semantics: roles appended after a match never change the lookup |
| `RobloxRankingApi.Fetch` | RobloxRankingAPI.ts:22-39 | a missing group id fails with no list call and leaves the cache alone; a populated cache is returned as it is, with no list call; otherwise exactly one list call is made; when upstream returns, the cache holds exactly the roles returned and they are the result; a failure leaves the cache as it was and fails with RolesFetchFailed |
| `RobloxRankingApi.Resolve` | RobloxRankingAPI.ts:44-54 | the cache and the list calls change only through the fetch; fetch errors propagate; once the roles are obtained, a role with the requested rank gives Ok with the name of the first such role; it fails with RoleNotFound exactly when the roles were obtained and none has that rank |
| `RobloxRankingApi.Update` | RobloxRankingAPI.ts:75-93 | a missing group id fails with no update call; otherwise one update `(groupId, userId, roleId)` is sent; it succeeds exactly when upstream returns, with upstream's role; a throw becomes UpdateFailed carrying the thrown message, or "Unknown error" when there is none |
| `RobloxRankingApi.SetRank` | RobloxRankingAPI.ts:60-68 | a rank outside 0..255 fails with InvalidRankValue, with no list call, no cache change and no update; an update is sent exactly when the rank is in range and resolves, and it names the first cached role of that rank; resolution errors are returned unchanged; once an update is sent the result is exactly updateGroupRank's, including its wrapped error; success means an update was sent and upstream's role is returned |
| `RobloxRankingApi.FetchKeepsHistory` | RobloxRankingAPI.ts:26-38 | a fetch keeps the cache history well formed: every list call but the last one threw, and the cache is populated exactly when the last one returned |
| `RobloxRankingApi.SetRankKeepsHistory` | RobloxRankingAPI.ts:60-67 | a whole setRankByRankValue call keeps the cache history well formed |
| `RobloxRankingApi.CachedRolesAreServed` | RobloxRankingAPI.ts:26-28 | with the roles cached, a fetch returns exactly them, leaves the cache alone and makes no list call, whatever upstream would do |
| `RobloxRankingApi.TwoResolutionsListOnce` | RobloxRankingAPI.ts:26-34 | after a successful resolution, a second resolution for any rank makes no list call and leaves the cache alone, so two resolutions list at most once |
| `RobloxRankingApi.ListingIsCached` | RobloxRankingAPI.ts:31-34 | with the group id set and the cache empty, a listing upstream returns is cached exactly and returned, after one list call |
| `RobloxRankingApi.FailedFetchIsRetried` | RobloxRankingAPI.ts:30-38 | a list call that throws leaves the cache empty, and the next fetch calls upstream again |
| `RobloxRankingApi.CachedRolesAreFinal` | RobloxRankingAPI.ts:16-28 | from a populated cache, no sequence of later calls lists roles again or changes the cached roles |
| `RobloxRankingApi.ReplayKeepsHistory` | RobloxRankingAPI.ts:22-39 | any sequence of setRankByRankValue calls keeps the cache history well formed |
| `RobloxRankingApi.ListedAtMostOnceSuccessfully` | RobloxRankingAPI.ts:16-39 | from process start, over any sequence of calls, every list call but possibly the last one threw, so after the first success no list call follows; with no group id no list call is ever made |
| `RobloxRankingApi.RoleResolver.constructor` | RobloxRankingAPI.ts:16 | the cache starts empty, with no calls made, and the cache history holds |
| `RobloxRankingApi.RoleResolver.FetchAndCacheGroupRoles` | RobloxRankingAPI.ts:22-39 | the returned value, the new cache and the list calls made are those of `Fetch` on the old cache; no update call is made; the cache history is preserved |
| `RobloxRankingApi.RoleResolver.GetRoleFromRankValue` | RobloxRankingAPI.ts:44-54 | the result, the new cache and the list calls made are those of `Resolve`; no update call is made |
| `RobloxRankingApi.RoleResolver.SetRankByRankValue` | RobloxRankingAPI.ts:60-68 | the result, the new cache, the list calls and the update calls are those of `SetRank` on the old cache |
| `RobloxRankingApi.RoleResolver.UpdateGroupRank` | RobloxRankingAPI.ts:75-93 | the result and the update calls made are those of `Update`; nothing else changes |
| `JsValues.NatToDecimal` | server.ts:42 | the numeral is non-empty, all digits, and has no leading zero unless the number is zero |
| `JsValues.NatDecimalRoundTrip` | server.ts:42 | reading back the numeral of a non-negative integer gives the integer |
| `JsValues.IntDecimalRoundTrip` | server.ts:42 | the numeral of any integer, with a leading minus when negative, is non-empty and reads back as the integer |
| `JsValues.JsString` | server.ts:36 | `String(v)` of a body field: a string is itself, a number reads back as itself, and a truthy field never becomes the empty string |
| `Server.Authorize` | server.ts:13-22 | without a configured secret no header is authorized; an authorized header starts with `Bearer ` followed by exactly the secret; the header `Bearer <secret>` is authorized when the secret is set |
| `Server.Gate` | server.ts:16-33 | a request goes on to the resolver exactly when it is authorized and its body is valid; otherwise it gets 401 for failed authorization, or 400 for a falsy userId or a non-number rankValue |
| `Server.Reply` | server.ts:35-53 | a resolver success gives 200 with the string userId and the returned role's display name and rank; any resolver error gives 500 with that error |
| `Server.Respond` | server.ts:13-54 | exactly one of 401, 400, 200 and 500, in that precedence; success is true exactly for 200; with no secret every request is 401; the 200 data carries a non-empty user id and the returned role; a 500 carries the resolver's error |
| `Server.RejectionIgnoresResolver` | server.ts:16-33 | a request refused by authorization or validation gets the same response whatever the resolver would do |
| `Server.HandleRankUser` | server.ts:25-54 | a request refused at the gate gets the gate's response and leaves the resolver untouched, so no fetch and no update happen; otherwise the response is `Respond` of what `SetRank` returns for `String(userId)` and the rank, and the resolver's cache and call logs move as `SetRank` says |
| `Server.RankFiftyScenario` | server.ts:36-46 | on a fresh process, rank 50 resolving to the role "Member" sends one update for that role's name, caches the listed roles and answers 200 with `{"123", "Member", 50}` |
| `Server.OutOfRangeScenario` | RobloxRankingAPI.ts:61-63 | rank 999 is answered 500 with InvalidRankValue, and no list call, cache change or update happens |

## Left out

- The external group API client and its two calls (`listGroupRoles`, `updateGroupMembership`) are foreign code. Each is replaced by an `Upstream<T>` outcome parameter. The membership role it returns keeps only `displayName` and `rank`.
- The API key is only passed to the client at construction. No operation of the core reads it, so it is not modelled.
- Express wiring, JSON body parsing, `dotenv`, `app.listen` and the startup warnings are framework and process plumbing.
- The module-load configuration check only logs, so it is not modelled.
- Logging and all human-readable strings are not modelled. This covers the success `message` and the error texts. Errors are kinds (`RankError`, `Failure`). `RoleNotFound` keeps the rank value, which its message mentions. `UpdateFailed` keeps the upstream message.
- Concurrent requests are modelled one after another. The race where two first requests both list the roles and overwrite the cache comes from `async` interleaving and is not modelled.
- JavaScript numbers are modelled as integers. `NaN` and fractions pass both the `typeof` check (server.ts:28) and the range check (RobloxRankingAPI.ts:61); the model has neither. `±Infinity` passes the `typeof` check and is then rejected by the range check, as a large integer is in the model. `Number(rankValue)` is the identity.
- JsValues.JsString: prints every integer as its exact decimal numeral. JavaScript does so only up to 2^53. Above that, `String()` prints the shortest digits that round-trip to the double, and from 10^21 on it prints exponent notation ("1e+21"). The model follows neither, and it does not model `String()` of fractional numbers. So the claim that a number reads back as itself holds in the model; in the source it holds only for safe integers.
- Body fields that are JSON objects or arrays are not modelled. Such fields are truthy in the source and would pass the userId check.
- A request with no parsed body is not modelled.
