/** The three permission classes of the API's own permission module. */
module MyPermissions {
  import opened Auth
  import ApiPermissions

  // IsAuthorOrReadOnly

  function AuthorOrReadOnlyHasPermission(req: Request): (r: bool)
    ensures IsSafe(req.verb) ==> r
    ensures !IsSafe(req.verb) ==> (r <==> Authenticated(req.user))
  {
    IsSafe(req.verb) || Authenticated(req.user)
  }

  function AuthorOrReadOnlyHasObjectPermission(req: Request, author: int): (r: bool)
    ensures IsSafe(req.verb) ==> r
    ensures !IsSafe(req.verb) ==> (r <==> IsAuthor(author, req.user))
  {
    IsSafe(req.verb) || IsAuthor(author, req.user)
  }

  /** The class of the same name in the API package decides every request
      and object the same way. */
  lemma AuthorOrReadOnlyAgrees(req: Request, author: int)
    ensures AuthorOrReadOnlyHasPermission(req) ==
      ApiPermissions.AuthorOrReadOnlyHasPermission(req)
    ensures AuthorOrReadOnlyHasObjectPermission(req, author) ==
      ApiPermissions.AuthorOrReadOnlyHasObjectPermission(req, author)
  {
  }

  // IsAdminOrReadOnly

  function AdminOrReadOnlyHasPermission(req: Request): (r: bool)
    ensures IsSafe(req.verb) ==> r
    ensures !IsSafe(req.verb) ==> (r <==> Authenticated(req.user))
  {
    IsSafe(req.verb) || Authenticated(req.user)
  }

  function AdminOrReadOnlyHasObjectPermission(req: Request): (r: bool)
    ensures IsSafe(req.verb) ==> r
    ensures !IsSafe(req.verb) ==> (r <==> IsStaff(req.user))
  {
    IsSafe(req.verb) || IsStaff(req.user)
  }

  /** Staff are logged in, so the object check never admits a request the
      view check refused. */
  lemma AdminObjectPermissionImpliesPermission(req: Request)
    ensures AdminOrReadOnlyHasObjectPermission(req) ==> AdminOrReadOnlyHasPermission(req)
  {
  }

  // IsAuthenticatedOrListOnly

  /** Only reading, and only when logged in: every non-safe method is
      refused at the view level, staff included. */
  function AuthenticatedOrListOnlyHasPermission(req: Request): (r: bool)
    ensures r <==> IsSafe(req.verb) && Authenticated(req.user)
    ensures !IsSafe(req.verb) ==> !r
  {
    IsSafe(req.verb) && Authenticated(req.user)
  }

  function AuthenticatedOrListOnlyHasObjectPermission(req: Request): (r: bool)
    ensures IsStaff(req.user) ==> r
    ensures !IsStaff(req.user) ==> (r <==> IsSafe(req.verb) && Authenticated(req.user))
  {
    (IsSafe(req.verb) && Authenticated(req.user)) || IsStaff(req.user)
  }

  /** The framework asks the object check only after the view check passed;
      with both in place the staff clause changes nothing: a request gets
      through exactly when it is a safe method from a logged-in user. */
  lemma ListOnlyStaffClauseUnreachable(req: Request)
    ensures (AuthenticatedOrListOnlyHasPermission(req) &&
             AuthenticatedOrListOnlyHasObjectPermission(req))
      <==> IsSafe(req.verb) && Authenticated(req.user)
  {
  }

  /** An anonymous visitor is refused every non-safe method by all three
      classes before any object is looked at. */
  lemma AnonymousCannotWrite(req: Request)
    requires !IsSafe(req.verb) && req.user == Anonymous
    ensures !AuthorOrReadOnlyHasPermission(req)
    ensures !AdminOrReadOnlyHasPermission(req)
    ensures !AuthenticatedOrListOnlyHasPermission(req)
    ensures !ApiPermissions.AuthorOrReadOnlyHasPermission(req)
  {
  }
}
