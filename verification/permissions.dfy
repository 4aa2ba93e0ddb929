/** The author-or-read-only permission of the API package. */
module ApiPermissions {
  import opened Auth

  /** View level: reading is open to everyone, writing needs a login. */
  function AuthorOrReadOnlyHasPermission(req: Request): (r: bool)
    ensures IsSafe(req.verb) ==> r
    ensures !IsSafe(req.verb) ==> (r <==> Authenticated(req.user))
  {
    IsSafe(req.verb) || Authenticated(req.user)
  }

  /** Object level: reading is open to everyone, writing only to the author
      of the object. */
  function AuthorOrReadOnlyHasObjectPermission(req: Request, author: int): (r: bool)
    ensures IsSafe(req.verb) ==> r
    ensures !IsSafe(req.verb) ==> (r <==> IsAuthor(author, req.user))
  {
    IsSafe(req.verb) || IsAuthor(author, req.user)
  }

  /** Whatever the object check lets through, the view check let through
      first: an author is always logged in. */
  lemma ObjectPermissionImpliesPermission(req: Request, author: int)
    ensures AuthorOrReadOnlyHasObjectPermission(req, author) ==>
      AuthorOrReadOnlyHasPermission(req)
  {
  }

  /** A non-safe method on someone else's object is refused whoever asks. */
  lemma OthersCannotWrite(req: Request, author: int)
    requires !IsSafe(req.verb)
    requires !req.user.Member? || req.user.id != author
    ensures !AuthorOrReadOnlyHasObjectPermission(req, author)
  {
  }
}
