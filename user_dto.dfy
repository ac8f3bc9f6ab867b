/** `CreateUserDto` (restaraunt-backend/src/user/dto/create-user.dto.ts). */
module UserDto {
  import opened Wrappers
  import opened Js
  import opened Validation
  import Roles
  import UserService

  /** The values of the RoleType enum. */
  const ROLE_NAMES: set<string> := {"ADMIN", "SUPER_ADMIN", "CASHER", "WAITER", "OWNER"}

  /** Each property with the verdict of its decorators, in declaration order. */
  function Checks(body: Body): seq<(string, bool)> {
    var restaurantId := Field(body, "restaurantId");
    var regionId := Field(body, "regionId");
    [ ("name", IsString(Field(body, "name"))),
      ("phone", IsString(Field(body, "phone"))),
      ("password", IsString(Field(body, "password"))),
      ("role", IsEnum(Field(body, "role"), ROLE_NAMES)),
      ("restaurantId", Absent(restaurantId) || IsString(restaurantId)),
      ("regionId", Absent(regionId) || IsString(regionId)) ]
  }

  function Violations(body: Body): seq<string> {
    Failing(Checks(body))
  }

  /**
   * A body is accepted exactly when name, phone and password are strings of any content,
   * role names a RoleType, and each id is absent, null or a string.
   */
  lemma Accepted(body: Body)
    ensures Violations(body) == [] <==>
      && Field(body, "name").Str? && Field(body, "phone").Str? && Field(body, "password").Str?
      && Field(body, "role").Str? && Roles.Parse(Field(body, "role").s).Some?
      && (Field(body, "restaurantId") in {Undefined, Null} || Field(body, "restaurantId").Str?)
      && (Field(body, "regionId") in {Undefined, Null} || Field(body, "regionId").Str?)
  {
    var c := Checks(body);
    assert (forall i :: 0 <= i < |c| ==> c[i].1) <==> c[0].1 && c[1].1 && c[2].1 && c[3].1 && c[4].1 && c[5].1;
    if Field(body, "role").Str? {
      var s := Field(body, "role").s;
      if Roles.Parse(s).Some? {
        Roles.ParseName(Roles.Parse(s).value);
      }
    }
  }

  /** The account data an accepted body carries; absent and null ids both read as none. */
  function ToCreateUserDto(body: Body): UserService.CreateUserDto
    requires Violations(body) == []
  {
    Accepted(body);
    UserService.CreateUserDto(Field(body, "name").s, Field(body, "phone").s, Field(body, "password").s,
                              Roles.Parse(Field(body, "role").s).value,
                              OptionalText(Field(body, "restaurantId")), OptionalText(Field(body, "regionId")))
  }

  function OptionalText(v: JsValue): Option<string> {
    if v.Str? then Some(v.s) else None
  }

  /**
   * Unlike the restaurant form, any phone text passes, "12345" included; and an id sent as
   * blanks passes validation and is then stored as none by register.
   */
  lemma PhoneUncheckedIdsNormalised(name: string, password: string)
    ensures var body := map["name" := Str(name), "phone" := Str("12345"), "password" := Str(password),
                            "role" := Str("WAITER"), "regionId" := Str("  ")];
      Violations(body) == [] && UserService.NormaliseId(ToCreateUserDto(body).regionId) == None
  {
    var body := map["name" := Str(name), "phone" := Str("12345"), "password" := Str(password),
                    "role" := Str("WAITER"), "regionId" := Str("  ")];
    Accepted(body);
    assert Roles.Parse("WAITER") == Some(Roles.WAITER) by { Roles.ParseName(Roles.WAITER); }
    UserService.NormaliseIdBlank(Some("  "));
  }
}
