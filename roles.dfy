/** The role enum every guard decision is made over. */
module Roles {
  import opened Wrappers

  datatype RoleType = ADMIN | SUPER_ADMIN | CASHER | WAITER | OWNER

  const AllRoles: set<RoleType> := {ADMIN, SUPER_ADMIN, CASHER, WAITER, OWNER}

  /** The string value of an enum member, as it is stored, signed into tokens and compared. */
  function Name(r: RoleType): string {
    match r
    case ADMIN => "ADMIN"
    case SUPER_ADMIN => "SUPER_ADMIN"
    case CASHER => "CASHER"
    case WAITER => "WAITER"
    case OWNER => "OWNER"
  }

  /** The enum member whose value is `s`, if any (what `@IsEnum(RoleType)` accepts). */
  function Parse(s: string): (r: Option<RoleType>)
    ensures r.Some? ==> Name(r.value) == s
  {
    if s == "ADMIN" then Some(ADMIN)
    else if s == "SUPER_ADMIN" then Some(SUPER_ADMIN)
    else if s == "CASHER" then Some(CASHER)
    else if s == "WAITER" then Some(WAITER)
    else if s == "OWNER" then Some(OWNER)
    else None
  }

  /** Every role's value parses back to the role, and the enum has exactly five members. */
  lemma ParseName(r: RoleType)
    ensures Parse(Name(r)) == Some(r)
    ensures r in AllRoles
  {
  }
}
