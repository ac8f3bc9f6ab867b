/**
 * `UserService` (restaraunt-backend/src/user/user.service.ts): the account store and the
 * token lifecycle. The user table is a sequence in insertion order, so `findFirst` is the
 * first matching row; bcrypt is the uninterpreted function `hash`, and `bcrypt.compare`
 * is modelled as `hash(password) == stored`.
 */
module UserService {
  import opened Wrappers
  import opened Http
  import opened Roles
  import opened Paging
  import Js
  import Jwt
  import AuthGuard
  import Requests

  const PHONE_TAKEN: string := "Bu telefon raqam bilan foydalanuvchi mavjud"
  const LOGIN_FAILED: string := "User login qilishda xatolik yuz berdi"
  const USER_NOT_FOUND: string := "User topilmadi!"
  const FIND_ONE_FAILED: string := "Userni olishda xatolik yuz berdi"
  const ROLE_UPDATE_FAILED: string := "Role ni ADMIN ga o\U{2018}zgartirishda xatolik yuz berdi"
  const REMOVE_FAILED: string := "Userni o\U{2018}chirishda xatolik yuz berdi"
  const REMOVED: string := "User muvaffaqiyatli o\U{2018}chirildi"
  const NO_USERS: string := "Users aren't exists yet!"

  /** A row of the user table; `password` holds what was stored, normally a hash. */
  datatype User = User(id: string, name: string, phone: string, password: string, role: RoleType,
                       regionId: Option<string>, restaurantId: Option<string>, createdAt: int)

  /** The user object register and login return: every column but the password. */
  datatype PublicUser = PublicUser(id: string, name: string, phone: string, role: RoleType,
                                   regionId: Option<string>, restaurantId: Option<string>, createdAt: int)

  datatype TokenPair = TokenPair(accessToken: Jwt.Token, refreshToken: Jwt.Token)

  datatype AuthResponse = AuthResponse(accessToken: Jwt.Token, refreshToken: Jwt.Token, user: PublicUser)

  datatype CreateUserDto = CreateUserDto(name: string, phone: string, password: string, role: RoleType,
                                         restaurantId: Option<string>, regionId: Option<string>)

  /** Every field of the create body, each optional. */
  datatype UpdateUserDto = UpdateUserDto(name: Option<string>, phone: Option<string>, password: Option<string>,
                                         role: Option<RoleType>, restaurantId: Option<string>, regionId: Option<string>)

  // ---------------------------------------------------------------- tokens

  /** `generateTokens(user)`: `{id, role}` signed for a day with the access secret and for a week with the refresh secret. */
  function GenerateTokens(u: User, now: int): TokenPair {
    var payload := Jwt.Claims(u.id, u.role);
    TokenPair(Jwt.Sign(payload, Jwt.ACCESS_SECRET, now, Jwt.ONE_DAY),
              Jwt.Sign(payload, Jwt.REFRESH_SECRET, now, Jwt.SEVEN_DAYS))
  }

  /**
   * Both tokens carry the user's `{id, role}`; the access token verifies with the access
   * secret for one day, the refresh token with the refresh secret for seven, and neither
   * verifies with the other's secret.
   */
  lemma TokenPairLifetimes(u: User, now: int, at: int)
    ensures var p := GenerateTokens(u, now);
      && p.accessToken.claims == Jwt.Claims(u.id, u.role) && p.refreshToken.claims == p.accessToken.claims
      && (Jwt.Verify(p.accessToken, Jwt.ACCESS_SECRET, at).Success? <==> at < now + Jwt.ONE_DAY)
      && (Jwt.Verify(p.refreshToken, Jwt.REFRESH_SECRET, at).Success? <==> at < now + Jwt.SEVEN_DAYS)
      && Jwt.Verify(p.accessToken, Jwt.REFRESH_SECRET, at).Failure?
      && Jwt.Verify(p.refreshToken, Jwt.ACCESS_SECRET, at).Failure?
  {
    var p := GenerateTokens(u, now);
    Jwt.SecretsDiffer(p.accessToken, at);
    Jwt.SecretsDiffer(p.refreshToken, at);
  }

  /**
   * An issued access token, sent as "Bearer <token>", passes AuthGuard for a day and
   * gives the handler the user's id and role.
   */
  lemma IssuedAccessTokenAuthenticates(u: User, now: int, text: string, decode: string -> Result<Jwt.Token, string>, at: int)
    requires ' ' !in text && text != ""
    requires decode(text) == Success(GenerateTokens(u, now).accessToken)
    requires at < now + Jwt.ONE_DAY
    ensures AuthGuard.Authenticate(Some("Bearer " + text), decode, at) == Success(Requests.AuthUser(u.id, Some(u.role)))
  {
    AuthGuard.AcceptsExactlyValidAccessTokens("Bearer", text, decode, at);
    assert "Bearer" + " " + text == "Bearer " + text;
  }

  /**
   * `refreshAccessToken(refresh_token)`: verify with the refresh secret and sign the claims
   * again with the access secret for a day. `signError` is what the token library throws
   * when re-signing this payload, if it does; every failure becomes a 400 carrying the
   * thrown message.
   */
  function RefreshAccessToken(text: string, decode: string -> Result<Jwt.Token, string>, now: int,
                              signError: Option<string>)
    : (r: Result<Jwt.Token, Failure>)
    ensures r.Failure? ==> r.error.HttpError? && r.error.status == BAD_REQUEST
    ensures decode(text).Failure? ==> r == Failure(BadRequest(decode(text).error))
    ensures decode(text).Success? && decode(text).value.secret != Jwt.REFRESH_SECRET ==>
              r == Failure(BadRequest(Jwt.INVALID_SIGNATURE))
    ensures decode(text).Success? && decode(text).value.secret == Jwt.REFRESH_SECRET && now >= decode(text).value.exp ==>
              r == Failure(BadRequest(Jwt.EXPIRED))
    ensures decode(text).Success? && decode(text).value.secret == Jwt.REFRESH_SECRET && now < decode(text).value.exp ==>
              if signError.Some? then r == Failure(BadRequest(signError.value))
              else r == Success(Jwt.Sign(decode(text).value.claims, Jwt.ACCESS_SECRET, now, Jwt.ONE_DAY))
  {
    match Jwt.VerifyText(text, decode, Jwt.REFRESH_SECRET, now)
    case Failure(message) => Failure(BadRequest(message))
    case Success(payload) =>
      if signError.Some? then Failure(BadRequest(signError.value))
      else Success(Jwt.Sign(payload, Jwt.ACCESS_SECRET, now, Jwt.ONE_DAY))
  }

  /**
   * A successful refresh returns an access token with the refresh token's claims, the
   * access secret and an expiry one day after now; it needs an unexpired refresh token.
   */
  lemma RefreshKeepsClaims(text: string, decode: string -> Result<Jwt.Token, string>, now: int, signError: Option<string>)
    ensures var r := RefreshAccessToken(text, decode, now, signError);
      r.Success? ==>
        && decode(text).Success? && decode(text).value.secret == Jwt.REFRESH_SECRET && now < decode(text).value.exp
        && r.value.claims == decode(text).value.claims
        && r.value.secret == Jwt.ACCESS_SECRET
        && r.value.exp == now + Jwt.ONE_DAY && r.value.exp > now
  {
  }

  /** An access token presented for refresh is rejected with 400 "invalid signature". */
  lemma RefreshRejectsAccessToken(text: string, decode: string -> Result<Jwt.Token, string>, now: int, signError: Option<string>)
    requires decode(text).Success? && decode(text).value.secret == Jwt.ACCESS_SECRET
    ensures RefreshAccessToken(text, decode, now, signError) == Failure(BadRequest(Jwt.INVALID_SIGNATURE))
  {
    Jwt.WrongSecretRejected(decode(text).value, Jwt.REFRESH_SECRET, now);
  }

  // ---------------------------------------------------------------- lookups

  predicate HasPhone(phone: string, u: User) { u.phone == phone }

  predicate HasId(id: string, u: User) { u.id == id }

  /** `findFirst({where})`: the index of the first row satisfying `p`. */
  function FindFirst(users: seq<User>, p: User -> bool): (r: Option<nat>)
    ensures r.Some? ==> r.value < |users| && p(users[r.value])
    ensures r.Some? ==> forall j :: 0 <= j < r.value ==> !p(users[j])
    ensures r.None? ==> forall j :: 0 <= j < |users| ==> !p(users[j])
    decreases |users|
  {
    if users == [] then None
    else if p(users[0]) then Some(0)
    else match FindFirst(users[1..], p)
      case None => None
      case Some(k) => Some(k + 1)
  }

  /** A row appended after the table holds no match for `p` is the first match. */
  lemma FindFirstAppended(users: seq<User>, u: User, p: User -> bool)
    requires FindFirst(users, p).None? && p(u)
    ensures FindFirst(users + [u], p) == Some(|users|)
  {
    assert (users + [u])[|users|] == u;
    assert forall j :: 0 <= j < |users| ==> (users + [u])[j] == users[j];
  }

  // ---------------------------------------------------------------- register and login

  /** `data.regionId && data.regionId.trim() !== '' ? data.regionId : null`. */
  function NormaliseId(id: Option<string>): Option<string> {
    if id.Some? && id.value != "" && Js.Trim(id.value) != "" then id else None
  }

  /** An empty or whitespace-only id is stored as null; any other id is stored unchanged. */
  lemma NormaliseIdBlank(id: Option<string>)
    ensures NormaliseId(id).None? <==> id.None? || Js.AllWhitespace(id.value)
    ensures NormaliseId(id).Some? ==> NormaliseId(id) == id
  {
    if id.Some? { Js.TrimEmptyIffBlank(id.value); }
  }

  /** The row register creates: the hashed password and the normalised ids. */
  function NewUser(data: CreateUserDto, id: string, hash: string -> string, now: int): User {
    User(id, data.name, data.phone, hash(data.password), data.role,
         NormaliseId(data.regionId), NormaliseId(data.restaurantId), now)
  }

  function Public(u: User): PublicUser {
    PublicUser(u.id, u.name, u.phone, u.role, u.regionId, u.restaurantId, u.createdAt)
  }

  function Respond(u: User, now: int): AuthResponse {
    var tokens := GenerateTokens(u, now);
    AuthResponse(tokens.accessToken, tokens.refreshToken, Public(u))
  }

  /**
   * `login(data)`: the first user with the phone, if the password matches its stored hash.
   * An unknown phone, a wrong password and a failing lookup (`fault`) all end in the same 400.
   */
  function Login(users: seq<User>, hash: string -> string, phone: string, password: string, now: int,
                 fault: Option<string>)
    : (r: Result<AuthResponse, Failure>)
    ensures r.Failure? ==> r.error == BadRequest(LOGIN_FAILED)
    ensures r.Success? <==> fault.None? &&
                            exists i :: 0 <= i < |users| && users[i].phone == phone &&
                                        (forall j :: 0 <= j < i ==> users[j].phone != phone) &&
                                        users[i].password == hash(password)
    ensures r.Success? ==> var k := FindFirst(users, u => HasPhone(phone, u));
                           k.Some? && r.value == Respond(users[k.value], now)
  {
    if fault.Some? then Failure(BadRequest(LOGIN_FAILED))
    else match FindFirst(users, u => HasPhone(phone, u))
      case None => Failure(BadRequest(LOGIN_FAILED))
      case Some(i) =>
        if hash(password) != users[i].password then Failure(BadRequest(LOGIN_FAILED))
        else Success(Respond(users[i], now))
  }

  /**
   * After a successful registration the same phone and password log in, and the response
   * describes the new user.
   */
  lemma LoginAfterRegister(users: seq<User>, hash: string -> string, data: CreateUserDto, id: string,
                           now: int, later: int)
    requires FindFirst(users, u => HasPhone(data.phone, u)).None?
    ensures Login(users + [NewUser(data, id, hash, now)], hash, data.phone, data.password, later, None)
            == Success(Respond(NewUser(data, id, hash, now), later))
  {
    FindFirstAppended(users, NewUser(data, id, hash, now), u => HasPhone(data.phone, u));
  }

  // ---------------------------------------------------------------- findOne and findAll

  /**
   * `findOne(id)`: the whole row, password hash included; a missing id and a failing
   * lookup (`fault`) both end in the same 400.
   */
  function FindOne(users: seq<User>, id: string, fault: Option<string>): (r: Result<User, Failure>)
    ensures r.Success? <==> fault.None? && exists i :: 0 <= i < |users| && users[i].id == id
    ensures r.Success? ==> r.value in users && r.value.id == id
    ensures r.Failure? ==> r.error == BadRequest(FIND_ONE_FAILED)
  {
    if fault.Some? then Failure(BadRequest(FIND_ONE_FAILED))
    else match FindFirst(users, u => HasId(id, u))
      case None => Failure(BadRequest(FIND_ONE_FAILED))
      case Some(i) => Success(users[i])
  }

  datatype FindAllQuery = FindAllQuery(name: Option<string>, phone: Option<string>, restaurantId: Option<string>,
                                       regionId: Option<string>, role: Option<string>,
                                       page: Option<int>, limit: Option<int>, sort: Option<SortOrder>)

  /** The `where` of the list query; an absent field puts no constraint. */
  datatype UserWhere = UserWhere(nameContains: Option<string>, phoneContains: Option<string>,
                                 restaurantId: Option<string>, regionId: Option<string>, role: Option<string>)

  datatype UserFindMany = UserFindMany(where: UserWhere, orderByName: SortOrder, skip: int, take: int)

  /** Whether a row satisfies a `where` (case-sensitive here, see README). */
  predicate Matches(u: User, w: UserWhere) {
    && (w.nameContains.Some? ==> Js.Includes(u.name, w.nameContains.value))
    && (w.phoneContains.Some? ==> Js.Includes(u.phone, w.phoneContains.value))
    && (w.restaurantId.Some? ==> u.restaurantId == w.restaurantId)
    && (w.regionId.Some? ==> u.regionId == w.regionId)
    && (w.role.Some? ==> Name(u.role) == w.role.value)
  }

  /** The arguments `findAll` hands to the database: defaults page 1, limit 10, sort 'asc'. */
  function FindAllArgs(q: FindAllQuery): UserFindMany {
    var page := if q.page.Some? then q.page.value else 1;
    var limit := if q.limit.Some? then q.limit.value else 10;
    var sort := if q.sort.Some? then q.sort.value else Asc;
    UserFindMany(UserWhere(Js.KeepTruthy(q.name), Js.KeepTruthy(q.phone), Js.KeepTruthy(q.restaurantId),
                           Js.KeepTruthy(q.regionId), Js.KeepTruthy(q.role)),
                 sort, Skip(page, limit), limit)
  }

  /** Without filters the first page of ten is asked for, and no row is filtered out. */
  lemma FindAllDefaults(u: User)
    ensures var args := FindAllArgs(FindAllQuery(None, None, None, None, None, None, None, None));
      args.skip == 0 && args.take == 10 && args.orderByName == Asc && Matches(u, args.where)
  {
  }

  /** Empty filter strings are dropped like absent ones. */
  lemma FindAllDropsEmptyFilters(q: FindAllQuery, u: User)
    requires q.name == Some("") && q.phone == Some("") && q.restaurantId == Some("")
    requires q.regionId == Some("") && q.role == Some("")
    ensures Matches(u, FindAllArgs(q).where)
  {
  }

  datatype UserListing = NoUsers(message: string) | Users(rows: seq<User>)

  /**
   * `findAll(query)`: `db` answers the list query; an empty page becomes the message
   * "Users aren't exists yet!" and a database error a 400 carrying its message.
   */
  function FindAll(q: FindAllQuery, db: UserFindMany -> Result<seq<User>, string>): (r: Result<UserListing, Failure>)
    ensures r.Failure? <==> db(FindAllArgs(q)).Failure?
    ensures r.Failure? ==> r.error == BadRequest(db(FindAllArgs(q)).error)
    ensures r.Success? ==> (r.value == NoUsers(NO_USERS) <==> db(FindAllArgs(q)).value == [])
    ensures r.Success? && r.value.Users? ==> r.value.rows == db(FindAllArgs(q)).value
  {
    match db(FindAllArgs(q))
    case Failure(message) => Failure(BadRequest(message))
    case Success(rows) => if rows == [] then Success(NoUsers(NO_USERS)) else Success(Users(rows))
  }

  // ---------------------------------------------------------------- update

  /**
   * The row after `update(id, data)`: every supplied field overwrites its column, and a
   * truthy password is replaced by its hash first (an empty one is written as it is).
   */
  function Patch(u: User, data: UpdateUserDto, hash: string -> string): User {
    var password :=
      if data.password.Some? && data.password.value != "" then hash(data.password.value)
      else if data.password.Some? then data.password.value
      else u.password;
    User(u.id,
         if data.name.Some? then data.name.value else u.name,
         if data.phone.Some? then data.phone.value else u.phone,
         password,
         if data.role.Some? then data.role.value else u.role,
         if data.regionId.Some? then data.regionId else u.regionId,
         if data.restaurantId.Some? then data.restaurantId else u.restaurantId,
         u.createdAt)
  }

  /** The password is re-hashed only when a non-empty one is supplied; id and createdAt never change. */
  lemma PatchPassword(u: User, data: UpdateUserDto, hash: string -> string)
    ensures data.password.None? ==> Patch(u, data, hash).password == u.password
    ensures data.password.Some? && data.password.value != "" ==> Patch(u, data, hash).password == hash(data.password.value)
    ensures data.password == Some("") ==> Patch(u, data, hash).password == ""
    ensures Patch(u, data, hash).id == u.id && Patch(u, data, hash).createdAt == u.createdAt
  {
  }

  // ---------------------------------------------------------------- the table

  ghost predicate DistinctIds(users: seq<User>) {
    forall i, j :: 0 <= i < j < |users| ==> users[i].id != users[j].id
  }

  /** The user table and the operations that change it. */
  class UserStore {
    const hash: string -> string
    var users: seq<User>

    ghost predicate Valid()
      reads this
    {
      DistinctIds(users)
    }

    constructor (hash: string -> string)
      ensures Valid() && this.hash == hash && users == []
    {
      this.hash := hash;
      users := [];
    }

    /**
     * `register(data)`: refused with 400 when a user already has the phone, and then
     * nothing is created; otherwise the new row is appended and the tokens and public user
     * returned. `newId` is the id the database assigns. `lookupFault` and `fault` are the
     * errors the phone lookup and the insert throw, if they do; no handler catches either,
     * so each is a 500 and no new row.
     */
    method Register(data: CreateUserDto, newId: string, now: int, lookupFault: Option<string>, fault: Option<string>)
      returns (r: Result<AuthResponse, Failure>)
      requires Valid()
      requires forall i :: 0 <= i < |users| ==> users[i].id != newId
      modifies this
      ensures Valid()
      ensures lookupFault.Some? ==>
        r == Failure(RuntimeError(lookupFault.value)) && Status(r.error) == INTERNAL_SERVER_ERROR && users == old(users)
      ensures lookupFault.None? && FindFirst(old(users), u => HasPhone(data.phone, u)).Some? ==>
        r == Failure(BadRequest(PHONE_TAKEN)) && users == old(users)
      ensures lookupFault.None? && FindFirst(old(users), u => HasPhone(data.phone, u)).None? && fault.Some? ==>
        r == Failure(RuntimeError(fault.value)) && Status(r.error) == INTERNAL_SERVER_ERROR && users == old(users)
      ensures lookupFault.None? && FindFirst(old(users), u => HasPhone(data.phone, u)).None? && fault.None? ==>
        users == old(users) + [NewUser(data, newId, hash, now)] && r == Success(Respond(NewUser(data, newId, hash, now), now))
    {
      if lookupFault.Some? {
        return Failure(RuntimeError(lookupFault.value));
      }
      var existing := FindFirst(users, u => HasPhone(data.phone, u));
      if existing.Some? {
        return Failure(BadRequest(PHONE_TAKEN));
      }
      if fault.Some? {
        return Failure(RuntimeError(fault.value));
      }
      var hashedPassword := hash(data.password);
      var user := User(newId, data.name, data.phone, hashedPassword, data.role,
                       NormaliseId(data.regionId), NormaliseId(data.restaurantId), now);
      users := users + [user];
      var tokens := GenerateTokens(user, now);
      r := Success(AuthResponse(tokens.accessToken, tokens.refreshToken, Public(user)));
    }

    /**
     * `update(id, data)`: a lookup the database fails (`lookupFault`) ends in a 400 carrying
     * its message, whether or not the row exists; a missing id in a 400 carrying
     * "User topilmadi!"; a write the database refuses (`fault`, say a phone another row
     * holds) in a 400 carrying its message. None of these changes the table; otherwise the
     * row is patched in place and returned whole.
     */
    method Update(id: string, data: UpdateUserDto, lookupFault: Option<string>, fault: Option<string>)
      returns (r: Result<User, Failure>)
      requires Valid()
      modifies this
      ensures Valid()
      ensures lookupFault.Some? ==> r == Failure(BadRequest(lookupFault.value)) && users == old(users)
      ensures var k := FindFirst(old(users), u => HasId(id, u));
        lookupFault.None? ==>
          && (k.None? ==> r == Failure(BadRequest(USER_NOT_FOUND)) && users == old(users))
          && (k.Some? && fault.Some? ==> r == Failure(BadRequest(fault.value)) && users == old(users))
          && (k.Some? && fault.None? ==> var updated := Patch(old(users)[k.value], data, hash);
                r == Success(updated) && users == old(users)[k.value := updated])
    {
      if lookupFault.Some? {
        return Failure(BadRequest(lookupFault.value));
      }
      var k := FindFirst(users, u => HasId(id, u));
      if k.None? {
        return Failure(BadRequest(USER_NOT_FOUND));
      }
      if fault.Some? {
        return Failure(BadRequest(fault.value));
      }
      var changes := data;
      if changes.password.Some? && changes.password.value != "" {
        changes := changes.(password := Some(hash(changes.password.value)));
      }
      var old_ := users[k.value];
      var updated := User(old_.id,
                          if changes.name.Some? then changes.name.value else old_.name,
                          if changes.phone.Some? then changes.phone.value else old_.phone,
                          if changes.password.Some? then changes.password.value else old_.password,
                          if changes.role.Some? then changes.role.value else old_.role,
                          if changes.regionId.Some? then changes.regionId else old_.regionId,
                          if changes.restaurantId.Some? then changes.restaurantId else old_.restaurantId,
                          old_.createdAt);
      users := users[k.value := updated];
      r := Success(updated);
    }

    /**
     * `updateRoleToAdmin(id)`: only the role of that row becomes ADMIN; a missing id and a
     * database error (`fault`) both end in the same 400, not a 404, with nothing changed.
     */
    method UpdateRoleToAdmin(id: string, fault: Option<string>) returns (r: Result<User, Failure>)
      requires Valid()
      modifies this
      ensures Valid()
      ensures var k := FindFirst(old(users), u => HasId(id, u));
        && (k.None? || fault.Some? ==> r == Failure(BadRequest(ROLE_UPDATE_FAILED)) && users == old(users))
        && (k.Some? && fault.None? ==>
              r == Success(old(users)[k.value].(role := ADMIN))
              && users == old(users)[k.value := old(users)[k.value].(role := ADMIN)])
    {
      var k := FindFirst(users, u => HasId(id, u));
      if k.None? || fault.Some? {
        return Failure(BadRequest(ROLE_UPDATE_FAILED));
      }
      var promoted := users[k.value].(role := ADMIN);
      users := users[k.value := promoted];
      r := Success(promoted);
    }

    /**
     * `remove(id)`: the row goes and a confirmation comes back; a missing id and a database
     * error (`fault`) both end in the same 400, with nothing removed.
     */
    method Remove(id: string, fault: Option<string>) returns (r: Result<string, Failure>)
      requires Valid()
      modifies this
      ensures Valid()
      ensures var k := FindFirst(old(users), u => HasId(id, u));
        && (k.None? || fault.Some? ==> r == Failure(BadRequest(REMOVE_FAILED)) && users == old(users))
        && (k.Some? && fault.None? ==> r == Success(REMOVED) && users == old(users)[..k.value] + old(users)[k.value + 1..])
      ensures fault.None? ==> forall u :: u in users ==> u.id != id
    {
      var k := FindFirst(users, u => HasId(id, u));
      if k.None? || fault.Some? {
        return Failure(BadRequest(REMOVE_FAILED));
      }
      ghost var before := users;
      users := users[..k.value] + users[k.value + 1..];
      forall u | u in users ensures u.id != id {
        var j :| 0 <= j < |users| && users[j] == u;
        if j < k.value { assert u == before[j]; } else { assert u == before[j + 1]; }
      }
      r := Success(REMOVED);
    }
  }
}
