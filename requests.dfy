/** The per-request object the guards share: its Authorization header and `req['user']`. */
module Requests {
  import opened Wrappers
  import opened Roles

  /**
   * What `req['user']` holds once set. `role` is `None` when the role is falsy; the access
   * guard always sets it from a token's claims.
   */
  datatype AuthUser = AuthUser(id: string, role: Option<RoleType>)

  class Request {
    /** `req.headers.authorization`, absent when the header was not sent. */
    var authorization: Option<string>
    /** `req['user']`, absent until the access guard writes it. */
    var user: Option<AuthUser>

    constructor (authorization: Option<string>, user: Option<AuthUser>)
      ensures this.authorization == authorization && this.user == user
    {
      this.authorization := authorization;
      this.user := user;
    }
  }
}
