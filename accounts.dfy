/** The parts of the account directory that the listing and request handlers read. */
module Accounts {
  import opened Common

  datatype Role = Developer | Investor

  /** A user row; `username` is nullable and blank-able, `email` is unique. */
  datatype User = User(id: Id, email: string, username: Option<string>, role: Role)

  /** `request.user`: the anonymous user or an authenticated one. */
  datatype Caller = Anonymous | Authenticated(user: User)

  /** `obj.investor == request.user`: model instances compare by primary key, and the
      anonymous user equals no stored user. */
  predicate IsUser(c: Caller, u: User) {
    c.Authenticated? && c.user.id == u.id
  }
}
