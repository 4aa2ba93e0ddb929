/** What a permission check sees of a request: its HTTP method and the user
    behind it. */
module Auth {

  /** The user attached to a request. An anonymous visitor is not
      authenticated and is never staff; a registered user is authenticated
      and carries the staff flag of their account. */
  datatype User = Anonymous | Member(id: int, isStaff: bool)

  datatype Request = Request(verb: string, user: User)

  /** The read-only HTTP methods of the REST framework. */
  const SafeMethods: set<string> := {"GET", "HEAD", "OPTIONS"}

  /** Reading methods are safe; the methods that create, change or delete
      something are not. */
  function IsSafe(verb: string): (r: bool)
    ensures verb == "GET" ==> r
    ensures verb in {"POST", "PUT", "PATCH", "DELETE"} ==> !r
  {
    verb in SafeMethods
  }

  predicate Authenticated(u: User) {
    u.Member?
  }

  predicate IsStaff(u: User) {
    u.Member? && u.isStaff
  }

  /** `obj.author == request.user`: the stored author (a user id) is the
      requesting user. An anonymous visitor is nobody's author. */
  predicate IsAuthor(author: int, u: User) {
    u.Member? && u.id == author
  }
}
