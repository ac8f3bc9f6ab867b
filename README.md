# Gastranomics restaurant backend: authorization, tokens and accounts

This project models the decision-making core of the Gastranomics restaurant system: a NestJS
backend over Prisma, and the axios client of its web frontend. It covers:

- **The guard chain** in front of every handler. `AuthGuard` reads the bearer token and
  verifies it with the access secret, then writes `{id, role}` into the request. `RoleGuard`
  then admits the request only if that role is in the allow-list the handler declares.
- **The route table** of the user, category, withdraw, restaurant, order, debt, region and
  app controllers. Each route is a `Policy`: whether AuthGuard runs, plus the optional
  allow-list. `Access.Decide` runs a policy as a function; `Access.Run` runs it on the
  mutable request.
- **The token lifecycle.** A token pair is issued at register and login: an access token
  (secret `accessSecret`, one day) and a refresh token (secret `refreshSecret`, seven days).
  The refresh operation turns a refresh token into a new access token.
- **The user table** (`UserService.UserStore`): register, login, findOne, findAll, update,
  updateRoleToAdmin and remove.
- **The category and region services:** their list queries (defaults, filters, `skip`,
  `take`, `lastPage`) and the HTTP status each failure ends in.
- **The dashboard figures** (total revenue and rounded net profit) and their all-or-nothing
  failure.
- **The frontend's two interceptors:** attaching the stored access token, and refreshing it
  once after a 401 before replaying the request.
- **The class-validator rules** of `CreateRestarauntDto`, `CreateWithdrawDto` and
  `CreateUserDto`, including the phone and UUID patterns.

How the model stands in for the outside world:

- **Tokens** are values `{secret, claims {id, role}, iat, exp}`. Verification checks the
  secret first ("invalid signature") and then `now >= exp` ("jwt expired"). The text of a
  token is turned into a token by a function parameter `decode`. For text that is not a
  token, `decode` gives the message the library throws ("jwt must be provided", "jwt
  malformed", "invalid token", "jwt signature is required"), which verification passes on.
- **bcrypt** is an uninterpreted function `hash`.
- **The database** is a sequence or map of rows. List and count queries are function
  parameters. A database fault is an optional message `fault`; where the source catches
  it, it becomes the 400 the handler throws. Where it does not (register's phone lookup
  and insert), it is an uncaught error, which Nest answers with 500.
- **Time** is a parameter `now`.
- **JavaScript semantics** the code relies on are written out in `Js`: truthiness,
  `split(' ')`, `join`, `trim`, `includes` and `String(n)`.

## Model

| member | source | states |
|---|---|---|
| RoleGuard.Check | restaraunt-backend/src/tools/role/role.guard.ts:15-39 | the guard admits (returning true) exactly when no roles are required, or the user is present with a role that is in the allow-list |
| RoleGuard.AnyMatches | restaraunt-backend/src/tools/role/role.guard.ts:32 | `some(role => role === userRole)` is true iff the role occurs in the list |
| RoleGuard.NoMetadataAdmits | restaraunt-backend/src/tools/role/role.guard.ts:21-23 | without roles metadata the guard admits whatever `req['user']` holds |
| RoleGuard.HandlerOverridesClass | restaraunt-backend/src/tools/role/role.guard.ts:16-19 | roles declared on the handler are the ones enforced, whatever the class declares |
| RoleGuard.MissingUserIsServerError | restaraunt-backend/src/tools/role/role.guard.ts:25-26 | with roles required and no `req['user']`, reading `.role` throws a non-HTTP error, answered with 500 |
| RoleGuard.FalsyRoleUnauthorized | restaraunt-backend/src/tools/role/role.guard.ts:28-30 | a user without a role gets 401 "User role not found in request" |
| RoleGuard.OtherRoleUnauthorized | restaraunt-backend/src/tools/role/role.guard.ts:36-38 | a role outside the list gets 401 "You need one of these roles: …", and the message names every allowed role |
| RoleGuard.EmptyAllowListRejectsAll | restaraunt-backend/src/tools/role/role.guard.ts:21-38 | a present but empty allow-list rejects every user |
| AuthGuard.Authenticate | restaraunt-backend/src/tools/auth/auth.guard.ts:19-38 | the guard fails only with 401 "Token not provided" or 401 "Invalid token": the first exactly when no non-empty token follows the scheme, the second exactly when one does and it does not verify with the access secret; on success the user has a role |
| AuthGuard.CanActivate | restaraunt-backend/src/tools/auth/auth.guard.ts:14-39 | returns true and writes the token's `{id, role}` into `req['user']` exactly when Authenticate succeeds; otherwise throws and leaves `req['user']` as it was |
| AuthGuard.ExtractSecondField | restaraunt-backend/src/tools/auth/auth.guard.ts:19 | the token is the text between the first and second space, whatever the first word is |
| AuthGuard.SchemeNotChecked | restaraunt-backend/src/tools/auth/auth.guard.ts:19 | the header "Foo x" yields the token "x" |
| AuthGuard.NoSpaceNoToken | restaraunt-backend/src/tools/auth/auth.guard.ts:19 | a header without a space has no token |
| AuthGuard.MissingTokenRejected | restaraunt-backend/src/tools/auth/auth.guard.ts:19-25 | no header, "Bearer" and "Bearer  x" are all rejected with 401 "Token not provided" |
| AuthGuard.AcceptsExactlyValidAccessTokens | restaraunt-backend/src/tools/auth/auth.guard.ts:27-32 | "scheme token" is admitted iff the token verifies with the access secret at `now`, and then `req['user']` is exactly its `{id, role}` |
| AuthGuard.RefreshTokenRejected | restaraunt-backend/src/tools/auth/auth.guard.ts:28 | a token signed with the refresh secret is always rejected with 401 "Invalid token" |
| Access.Run | restaraunt-backend/src/user/user.controller.ts:35-37 | running AuthGuard, then RoleGuard, on the request gives Decide's outcome, and leaves in `req['user']` what Decide says the handler sees |
| Access.AdmittedRolesOf | restaraunt-backend/src/tools/role/role.guard.ts:32-34 | the roles a `@Roles(...)` route admits are exactly the listed ones; a route with AuthGuard only admits every role |
| Access.PublicAdmitsEveryone | restaraunt-backend/src/restaraunt/restaraunt.controller.ts:60-61 | a route without guards runs for every request, with or without a token |
| Access.GuardedNeedsAccessToken | restaraunt-backend/src/tools/auth/auth.guard.ts:22-38 | behind AuthGuard a handler runs only when the access token verifies |
| Access.ValidAccessTokenDecision | restaraunt-backend/src/tools/role/role.guard.ts:26-38 | with a valid access token the handler runs iff the token's role is admitted, and then sees the token's `{id, role}`; otherwise the caller gets RoleGuard's 401 |
| Access.RefreshTokenNeverAdmitted | restaraunt-backend/src/tools/auth/auth.guard.ts:27-37 | no guarded route runs for a request bearing a refresh token |
| Jwt.SignVerify | restaraunt-backend/src/user/user.service.ts:142-156 | a token signed with a secret verifies with that secret until `exp = now + expiresIn`, and gives back its claims |
| Jwt.SecretsDiffer | restaraunt-backend/src/user/user.service.ts:145-153 | no token verifies with both the access and the refresh secret |
| UserService.TokenPairLifetimes | restaraunt-backend/src/user/user.service.ts:142-156 | both tokens carry `{id, role}`; the access token lasts one day under `accessSecret`, the refresh token seven days under `refreshSecret`; neither verifies with the other's secret |
| UserService.IssuedAccessTokenAuthenticates | restaraunt-backend/src/user/user.service.ts:142-148 | a freshly issued access token sent as "Bearer …" passes AuthGuard for a day, with the user's id and role |
| UserService.RefreshAccessToken | restaraunt-backend/src/user/user.service.ts:298-313 | every failure is a 400 carrying the thrown message: the decoding message for text that is not a token, "invalid signature" for a token not signed with the refresh secret, "jwt expired" for an expired one, otherwise the signing error; an unexpired refresh token with no signing error gives its claims signed with the access secret for one day |
| UserService.RefreshKeepsClaims | restaraunt-backend/src/user/user.service.ts:300-308 | a successful refresh needs an unexpired refresh token; the new token has its claims, the access secret and one day of life |
| UserService.RefreshRejectsAccessToken | restaraunt-backend/src/user/user.service.ts:298-313 | an access token presented for refresh gets 400 "invalid signature" |
| UserService.FindFirst | restaraunt-backend/src/user/user.service.ts:28-30 | `findFirst` finds the least index whose row satisfies the condition, or reports that none does |
| UserService.FindFirstAppended | restaraunt-backend/src/user/user.service.ts:51-53 | a row appended to a table without a match is the first match |
| UserService.NormaliseIdBlank | restaraunt-backend/src/user/user.service.ts:43-48 | a region or restaurant id that is absent, empty or all whitespace is stored as null; any other id is stored unchanged |
| UserService.UserStore.Register | restaraunt-backend/src/user/user.service.ts:27-71 | a failing phone lookup is an uncaught 500 and adds no row, whether or not the phone is taken; a taken phone gives 400 and the table is unchanged; a failing insert is an uncaught 500 and adds no row; otherwise exactly one row is appended (hashed password, normalised ids), ids stay distinct, and the response holds the token pair and the user without its password |
| UserService.Login | restaraunt-backend/src/user/user.service.ts:158-195 | succeeds iff the lookup does not fail and the first user with the phone has the hash of the password as stored password, answering with that first user's tokens and public data; every failure is the same 400 |
| UserService.LoginAfterRegister | restaraunt-backend/src/user/user.service.ts:27-187 | after a successful registration the same phone and password log in and describe the new user |
| UserService.FindOne | restaraunt-backend/src/user/user.service.ts:250-261 | a present id gives the row, password hash included; a missing one or a failing lookup gives the same 400, not 404 |
| UserService.FindAll | restaraunt-backend/src/user/user.service.ts:197-248 | a database error is a 400 with its message; the answer is the text "Users aren't exists yet!" exactly when the page is empty; otherwise the rows |
| UserService.FindAllDefaults | restaraunt-backend/src/user/user.service.ts:208-241 | without parameters the first ten rows by name ascending are asked for, unfiltered |
| UserService.FindAllDropsEmptyFilters | restaraunt-backend/src/user/user.service.ts:222-232 | empty filter strings filter nothing, like absent ones |
| UserService.PatchPassword | restaraunt-backend/src/user/user.service.ts:268-275 | a non-empty password is replaced by its hash, an empty one is written as it is, an absent one keeps the stored hash; id and createdAt never change |
| UserService.UserStore.Update | restaraunt-backend/src/user/user.service.ts:263-279 | a failing lookup gives 400 with the database's message and no change, whether or not the row exists; otherwise a missing id gives 400 "User topilmadi!" and no change; a refused write gives 400 with the database's message and no change; otherwise only that row becomes its patched version, which is returned |
| UserService.UserStore.UpdateRoleToAdmin | restaraunt-backend/src/user/user.service.ts:281-296 | only that row's role becomes ADMIN; a missing id or a database error gives the same 400 and no change |
| UserService.UserStore.Remove | restaraunt-backend/src/user/user.service.ts:315-328 | the row is removed and no row with that id remains; a missing id or a database error gives the same 400 and no change |
| UserController.Permissions | restaraunt-backend/src/user/user.controller.ts:25-106 | register and login are unguarded; PATCH :id, PATCH :id/role and DELETE :id admit only ADMIN; list, GET :id and refresh admit any authenticated role |
| UserController.RefreshNeedsLiveAccessToken | restaraunt-backend/src/user/user.controller.ts:94-98 | the refresh route runs iff AuthGuard admits; an expired access token, or the refresh token sent as bearer, gets 401 "Invalid token" |
| UserController.RegionIdQueryCases | restaraunt-backend/src/user/user.controller.ts:72 | a non-empty string is forwarded unchanged; undefined, "" and 0 become undefined; a non-zero number becomes its decimal text |
| CategoryController.Permissions | restaraunt-backend/src/category/category.controller.ts:23-84 | every route authenticates; create, update and delete admit only ADMIN and SUPER_ADMIN; reads admit every role |
| CategoryController.IsActiveQueryCases | restaraunt-backend/src/category/category.controller.ts:50-54 | undefined stays undefined; `true` and "true" become true; everything else becomes false |
| WithdrawController.Permissions | restaraunt-backend/src/withdraw/withdraw.controller.ts:23-84 | writes admit ADMIN, SUPER_ADMIN, CASHER; reads add OWNER; WAITER is refused everywhere |
| WithdrawController.FindAllDefaults | restaraunt-backend/src/withdraw/withdraw.controller.ts:41-56 | absent sort, page and limit become 'desc', 1 and 10; given ones are forwarded |
| RestaurantController.Permissions | restaraunt-backend/src/restaraunt/restaraunt.controller.ts:23-104 | create, update and delete run AuthGuard and admit only ADMIN; GET :id admits any authenticated role; the list is public |
| OrderController.Permissions | restaraunt-backend/src/order/order.controller.ts:25-81 | every route but the list admits only WAITER and CASHER; the list admits every role, so ADMIN can list orders but not fetch one |
| OrderController.FindAllDefaults | restaraunt-backend/src/order/order.controller.ts:41-56 | absent page and limit become 1 and 10; sort stays absent |
| OrderController.CreateSeesCaller | restaraunt-backend/src/order/order.controller.ts:25-30 | create runs iff the token's role is WAITER or CASHER, and the request it passes on carries the caller's `{id, role}` |
| DebtController.Permissions | restaraunt-backend/src/debt/debt.controller.ts:23-69 | all five routes authenticate and admit exactly ADMIN, SUPER_ADMIN and CASHER |
| RegionController.Permissions | restaraunt-backend/src/region/region.controller.ts:23-80 | create, update and delete run AuthGuard and admit only ADMIN; GET :id admits any authenticated role; the list is public |
| AppController.Permissions | restaraunt-backend/src/app.controller.ts:15-23 | GET / is unguarded; the dashboard admits every role but OWNER |
| AppController.Round | restaraunt-backend/src/app.controller.ts:67 | `Math.round` gives the integer n with n - 0.5 <= x < n + 0.5 |
| AppController.GetDashboardStats | restaraunt-backend/src/app.controller.ts:24-72 | any failed query gives one generic error (500) and no figures; otherwise the counts as given, the revenue unrounded (null read as 0) and the net profit as 0.4 · revenue rounded |
| AppController.DashboardExamples | restaraunt-backend/src/app.controller.ts:46-67 | revenue 1000 gives net profit 400; no orders give 0 and 0; 1001 gives 400 with the revenue left as 1001 |
| Paging.LastPage | restaraunt-backend/src/category/category.service.ts:73 | `Math.ceil(total / limit)` is a whole number for every non-zero limit |
| Paging.LastPageIsCeiling | restaraunt-backend/src/category/category.service.ts:73 | for a positive limit, lastPage is the least number of pages that holds all rows |
| Paging.EveryRowOnSomePage | restaraunt-backend/src/category/category.service.ts:61-73 | every filtered row is taken by exactly the page `i / limit + 1`, which lies between 1 and lastPage |
| CategoryService.FindAll | restaraunt-backend/src/category/category.service.ts:24-79 | fails with 400 "Category olishda xatolik!" iff either query fails; otherwise the page from the list query, and a total counted with the same `where`, with page, limit and lastPage |
| CategoryService.WhereSemantics | restaraunt-backend/src/category/category.service.ts:42-50 | a row is listed iff its name contains the fragment, it belongs to the given restaurant when a non-empty id is given, and its flag matches when isActive is given |
| CategoryService.DefaultQuery | restaraunt-backend/src/category/category.service.ts:33-62 | without parameters every row matches, and the first ten by name ascending are asked for |
| CategoryService.CategoryTable.Create | restaraunt-backend/src/category/category.service.ts:15-22 | a database fault gives 400 with its message and stores nothing; otherwise exactly the new row is added |
| CategoryService.CategoryTable.FindOne | restaraunt-backend/src/category/category.service.ts:81-102 | a present id gives its row; a missing one, like any fault, gives 500 "Categoryni olishda xatolik", never 404 |
| CategoryService.CategoryTable.Update | restaraunt-backend/src/category/category.service.ts:104-117 | the supplied fields overwrite that row only; a missing id or a fault gives 400 and no change |
| CategoryService.CategoryTable.Remove | restaraunt-backend/src/category/category.service.ts:119-131 | the row is removed and returned; a missing id or a fault gives 400 and no change |
| RegionService.FindAll | restaraunt-backend/src/region/region.service.ts:27-78 | fails with 400 "Regions not exists yet!" iff either query fails; the total is counted with the list's own filter; lastPage is the ceiling of total / limit |
| RegionService.DefaultsAndPaging | restaraunt-backend/src/region/region.service.ts:34-47 | defaults are search '', sort asc, page 1 and limit 50; page p of size l skips (p - 1) · l rows and takes l |
| RegionService.RegionTable.Create | restaraunt-backend/src/region/region.service.ts:15-25 | a fault gives 400 "Region yaratishda xatolik yuz berdi" and stores nothing; otherwise the new row is added |
| RegionService.RegionTable.FindOne | restaraunt-backend/src/region/region.service.ts:80-104 | a missing region gives 500, not 404 |
| RegionService.RegionTable.Update | restaraunt-backend/src/region/region.service.ts:106-119 | the name is overwritten when given; a missing id or a fault gives 400 and no change |
| RegionService.RegionTable.Remove | restaraunt-backend/src/region/region.service.ts:121-133 | the row is removed and returned; a missing id or a fault gives 400 and no change |
| ApiClient.Client.OnRequest | restaraunt-frontend/src/services/api.ts:39-45 | the Authorization header becomes what Attach says |
| ApiClient.AttachCases | restaraunt-frontend/src/services/api.ts:40-43 | "Bearer <t>" is attached iff a non-empty access_token is stored; otherwise the header is untouched |
| ApiClient.Client.OnResponseError | restaraunt-frontend/src/services/api.ts:49-91 | the storage, the header, the `_retry` mark and the outcome after the handler are those of HandleError |
| ApiClient.RefreshAttemptedOnlyWhenQualified | restaraunt-frontend/src/services/api.ts:52-64 | a refresh happens iff status is 401, `_retry` is unset, the URL is not register or login, and a refresh token is stored; anything else is rejected unchanged |
| ApiClient.AuthEndpointsNeverRefresh | restaraunt-frontend/src/services/api.ts:52-54 | errors of /user/login and /user/register URLs are never answered by a refresh |
| ApiClient.AtMostOneReplay | restaraunt-frontend/src/services/api.ts:56-61 | a replayed request that fails again is rejected without refreshing or touching storage |
| ApiClient.ReplayCarriesNewToken | restaraunt-frontend/src/services/api.ts:56-74 | the request is replayed exactly when a qualifying 401 finds a refresh token and the refresh answers; the answered token is then stored, the replay carries it as "Bearer …", the request interceptor keeps that header, and no other key changes |
| ApiClient.MissingFieldStoresUndefined | restaraunt-frontend/src/services/api.ts:70-73 | a refresh answer without `access_token` stores "undefined" and replays with "Bearer undefined" |
| ApiClient.LogoutClearsSession | restaraunt-frontend/src/services/api.ts:56-90 | a refresh that fails, or no refresh token, removes exactly access_token, refresh_token and user; it rejects with the error the refresh answered, or the original error when no token was stored |
| Patterns.MatchIffFits | restaraunt-backend/src/restaraunt/dto/create-restaraunt.dto.ts:41 | the character-by-character matcher accepts exactly the texts of the pattern's length whose every character lies in its position's class |
| Patterns.PhoneShape | restaraunt-backend/src/restaraunt/dto/create-restaraunt.dto.ts:41-44 | `^\+998[0-9]{9}$` matches exactly "+998" followed by nine ASCII digits, 13 characters in all |
| Patterns.UuidShape | restaraunt-backend/src/withdraw/dto/create-withdraw.dto.ts:15-17 | a UUID is 36 characters, dashes at 8, 13, 18 and 23, hexadecimal digits elsewhere |
| Validation.Failing | restaraunt-backend/src/restaraunt/dto/create-restaraunt.dto.ts:14-49 | the reported properties are exactly those whose checks fail, and none is reported iff all pass |
| RestaurantDto.Accepted | restaraunt-backend/src/restaraunt/dto/create-restaraunt.dto.ts:14-49 | accepted iff name, regionId, address are strings; tip a number in [0, 100]; type a RestaurantType; phone "+998" and nine digits; isActive a boolean |
| RestaurantDto.TipBounds | restaraunt-backend/src/restaraunt/dto/create-restaraunt.dto.ts:23-27 | tips 0 and 100 pass; -1, 101 and the text "50" fail |
| WithdrawDto.Accepted | restaraunt-backend/src/withdraw/dto/create-withdraw.dto.ts:7-27 | accepted iff type is INCOME or OUTCOME, amount a number ≥ 0, restaurantId a UUID, orderId absent or a UUID, description absent or a string |
| WithdrawDto.OptionalAndRequired | restaraunt-backend/src/withdraw/dto/create-withdraw.dto.ts:11-27 | leaving out orderId and description is accepted; leaving out amount or restaurantId is reported |
| UserDto.Accepted | restaraunt-backend/src/user/dto/create-user.dto.ts:7-31 | accepted iff name, phone and password are strings of any content, role names a RoleType, and each id is absent or a string |
| UserDto.PhoneUncheckedIdsNormalised | restaraunt-backend/src/user/dto/create-user.dto.ts:11-31 | the phone "12345" passes the user form, unlike the restaurant form, and a blank regionId passes and is then stored as null by register |

## Left out

- **Cryptography.** JWT signatures, the compact token encoding and bcrypt's salt are left
  out. Tokens are abstract values decoded by a parameter, and hashing is one
  uninterpreted function, so `bcrypt.compare` is equality of hashes.
- **The database.** Prisma, its relations (`include`), ordering, case-insensitive
  `contains` and pagination are left out:
  - list and count answers are function parameters;
  - `Matches` predicates state what the filters mean, matching case-sensitively;
  - database faults (foreign keys, lost connections) are optional messages.
- **Column defaults.** The user's `balans` column and the `createdAt` default are not modelled.
- **JavaScript numbers** are integers, and the dashboard's amounts are exact reals:
  - fractions in query parameters, NaN and floating-point rounding are left out;
  - query parameters arrive as typed values, not as text coerced by `Number` or `*`.
- RoleGuard.GetAllAndOverride: only picks the handler's list over the class's. Nest's
  `Reflector`, decorator stacking and Express route matching are replaced by the explicit
  route tables. Because of that, the declaration of `PATCH :id` before
  `PATCH /refresh-token` in the user controller is not modelled.
- **The dashboard's `@Roles` decorator** is imported from
  `src/user/decorators/roles.decorators`. The guard reads its key from `tools/decorators`.
  The model assumes both modules define the same key. If they did not, the dashboard would
  admit every authenticated role.
- UserService.Login: `bcrypt.compare` is modelled as `hash(password) == stored`. bcrypt never
  matches a stored value that is not a bcrypt hash, such as the empty password `update`
  writes unhashed. The model leaves `hash` uninterpreted, so it does not exclude a
  password whose hash is the empty text logging in to such a row.
- UserService.RefreshAccessToken: takes as a parameter whether the token library
  refuses to re-sign a payload that already carries `exp`. That is library behaviour, so
  the model does not claim refresh always succeeds.
- **`createTestData`**, `console.log` output, `onModuleInit` and `app.module.ts` are left
  out. So are the services of the restaurant, order, debt and withdraw controllers, which
  are not part of this model: only those routes' guards and argument defaults are
  modelled. The restaurant, debt and region list handlers forward their queries unchanged,
  so nothing about them is stated beyond their guards.
- **The client's network.** The axios client, `window.location` redirects, and the
  endpoint wrappers after the interceptors are left out. Replaying a request is an outcome
  rather than a call. The refresh call is a function from the refresh token sent to its
  answer, so the interceptors running on that nested call are not modelled.
- **Whether the validators run at all** depends on a global `ValidationPipe`, whose set-up
  is not part of this model. `IsUUID` and `Min` are modelled as their decorators' names
  say: the canonical 8-4-4-4-12 form in either case, and a number no smaller than the bound.
- **The enum values.** RestaurantType's values come from the database schema, so they are
  a parameter. WithdrawType is taken to be INCOME and OUTCOME.
- **`CreateOrderDto`** is not part of this model. Its substantive rule lives in a nested
  item type whose file is not shown.

## Observations

- The refresh handler is unreachable. `PATCH :id` (user.controller.ts:35-41) is declared
  before `PATCH /refresh-token` (:94-98). Express takes the first route that matches, so a
  PATCH to /user/refresh-token is handled by `update` with id "refresh-token" and needs an
  ADMIN. Even as declared, the refresh route sits behind AuthGuard
  (`UserController.RefreshNeedsLiveAccessToken`), so a client whose access token has
  expired would get 401 from the route meant to renew it. The web client only calls
  refresh after a 401, and it sends `POST` while the server declares `PATCH`.
- The server answers a refresh with the bare token text. The client reads
  `response.data.access_token`, which is then undefined, so it stores the text
  "undefined" (`ApiClient.MissingFieldStoresUndefined`).
- `update` re-hashes the password only when it is truthy. An empty password is written
  to the table as it is (`UserService.PatchPassword`).
- A present but empty `@Roles()` list would reject every user
  (`RoleGuard.EmptyAllowListRejectsAll`).
- Missing rows surface as 400 (user findOne, update, updateRoleToAdmin and remove;
  category and region update and remove) or as 500 (category and region findOne), never
  as 404.
- `findOne`, `update` and `updateRoleToAdmin` return the whole user row, password hash
  included.
