/** The three relation endpoints of the API: following an author, marking a
    recipe as a favorite, and putting a recipe in the shopping cart. Each is
    a set of (user id, target id) pairs that a POST adds to and a DELETE
    removes from. */
module Relations {
  import opened Auth
  import opened Serializers
  import ApiPermissions

  /** The two methods the endpoints are routed for; the router answers any
      other method itself. */
  datatype Verb = Post | Delete

  function VerbName(v: Verb): (name: string)
    ensures !IsSafe(name)
  {
    match v
    case Post => "POST"
    case Delete => "DELETE"
  }

  /** The status code of a response. */
  datatype Status = Created | NoContent | BadRequest | Unauthorized | NotFound

  function Code(s: Status): (c: int)
    ensures 200 <= c < 500
    ensures c < 300 <==> s.Created? || s.NoContent?
  {
    match s
    case Created => 201
    case NoContent => 204
    case BadRequest => 400
    case Unauthorized => 401
    case NotFound => 404
  }

  /** A relation after a request, and the status of the response. */
  datatype Outcome = Outcome(pairs: set<Pair>, status: Status)

  // ---------------------------------------------------------------------
  // What each endpoint does to its relation, once the user is known

  /** Following `author`: the author must exist; a POST refuses
      self-subscription and an existing subscription, a DELETE needs one. */
  function SubscribeStep(subscriptions: set<Pair>, users: set<int>, user: int, author: int, verb: Verb): (res: Outcome)
    ensures res.status == NotFound <==> author !in users
    ensures verb.Post? ==>
      (res.status == Created <==> author in users && user != author && (user, author) !in subscriptions)
    ensures verb.Delete? ==>
      (res.status == NoContent <==> author in users && (user, author) in subscriptions)
    ensures res.status in {Created, NoContent, BadRequest, NotFound}
    ensures res.status == Created ==> verb.Post?
    ensures res.status == NoContent ==> verb.Delete?
    ensures res.status == Created ==> res.pairs == subscriptions + {(user, author)}
    ensures res.status == NoContent ==> res.pairs == subscriptions - {(user, author)}
    ensures res.status != Created && res.status != NoContent ==> res.pairs == subscriptions
    ensures forall p :: p != (user, author) ==> (p in res.pairs <==> p in subscriptions)
  {
    if author !in users then Outcome(subscriptions, NotFound)
    else
      match verb
      case Post =>
        if user == author then Outcome(subscriptions, BadRequest)
        else if (user, author) in subscriptions then Outcome(subscriptions, BadRequest)
        else Outcome(subscriptions + {(user, author)}, Created)
      case Delete =>
        if (user, author) in subscriptions then Outcome(subscriptions - {(user, author)}, NoContent)
        else Outcome(subscriptions, BadRequest)
  }

  /** Favoring `recipe`: the recipe must exist; a POST goes through the
      favorite serializer, which refuses an existing pair; a DELETE needs the
      pair. */
  function FavoriteStep(favorites: set<Pair>, recipes: set<int>, user: int, recipe: int, verb: Verb): (res: Outcome)
    ensures res.status == NotFound <==> recipe !in recipes
    ensures verb.Post? ==> (res.status == Created <==> recipe in recipes && (user, recipe) !in favorites)
    ensures verb.Delete? ==> (res.status == NoContent <==> recipe in recipes && (user, recipe) in favorites)
    ensures res.status in {Created, NoContent, BadRequest, NotFound}
    ensures res.status == Created ==> verb.Post?
    ensures res.status == NoContent ==> verb.Delete?
    ensures res.status == Created ==> res.pairs == favorites + {(user, recipe)}
    ensures res.status == NoContent ==> res.pairs == favorites - {(user, recipe)}
    ensures res.status != Created && res.status != NoContent ==> res.pairs == favorites
    ensures forall p :: p != (user, recipe) ==> (p in res.pairs <==> p in favorites)
  {
    if recipe !in recipes then Outcome(favorites, NotFound)
    else
      match verb
      case Post =>
        if ValidateFavorite(VerbName(Post), favorites, user, recipe).Rejected? then Outcome(favorites, BadRequest)
        else Outcome(favorites + {(user, recipe)}, Created)
      case Delete =>
        if (user, recipe) in favorites then Outcome(favorites - {(user, recipe)}, NoContent)
        else Outcome(favorites, BadRequest)
  }

  /** Putting `recipe` in the cart: the recipe must exist; a POST goes
      through the shopping-cart serializer (the recipe must exist, the pair
      must not) and then checks the pair once more; a DELETE needs the
      pair. */
  function CartStep(carts: set<Pair>, recipes: set<int>, user: int, recipe: int, verb: Verb): (res: Outcome)
    ensures res.status == NotFound <==> recipe !in recipes
    ensures verb.Post? ==> (res.status == Created <==> recipe in recipes && (user, recipe) !in carts)
    ensures verb.Delete? ==> (res.status == NoContent <==> recipe in recipes && (user, recipe) in carts)
    ensures res.status in {Created, NoContent, BadRequest, NotFound}
    ensures res.status == Created ==> verb.Post?
    ensures res.status == NoContent ==> verb.Delete?
    ensures res.status == Created ==> res.pairs == carts + {(user, recipe)}
    ensures res.status == NoContent ==> res.pairs == carts - {(user, recipe)}
    ensures res.status != Created && res.status != NoContent ==> res.pairs == carts
    ensures forall p :: p != (user, recipe) ==> (p in res.pairs <==> p in carts)
  {
    if recipe !in recipes then Outcome(carts, NotFound)
    else
      match verb
      case Post =>
        if ValidateRecipe(recipe, recipes).Err? then Outcome(carts, BadRequest)
        else if ValidateShoppingCart(VerbName(Post), carts, user, recipe).Rejected? then Outcome(carts, BadRequest)
        else if (user, recipe) !in carts then Outcome(carts + {(user, recipe)}, Created)
        else Outcome(carts, BadRequest)
      case Delete =>
        if (user, recipe) in carts then Outcome(carts - {(user, recipe)}, NoContent)
        else Outcome(carts, BadRequest)
  }

  // ---------------------------------------------------------------------
  // The stored relations and the endpoints

  /** The stored users and recipes (by id) and the three relations. */
  class Store {
    var users: set<int>
    var recipes: set<int>
    var subscriptions: set<Pair>
    var favorites: set<Pair>
    var carts: set<Pair>

    constructor (users: set<int>, recipes: set<int>)
      ensures this.users == users && this.recipes == recipes
      ensures subscriptions == {} && favorites == {} && carts == {}
    {
      this.users := users;
      this.recipes := recipes;
      subscriptions := {};
      favorites := {};
      carts := {};
    }

    /** The `subscribe` action: login required, then the author is looked
        up, then the relation is changed as `SubscribeStep` says. */
    method Subscribe(user: User, author: int, verb: Verb) returns (status: Status)
      modifies this
      ensures !Authenticated(user) ==> status == Unauthorized && subscriptions == old(subscriptions)
      ensures Authenticated(user) ==>
        Outcome(subscriptions, status) == SubscribeStep(old(subscriptions), users, user.id, author, verb)
      ensures users == old(users) && recipes == old(recipes)
      ensures favorites == old(favorites) && carts == old(carts)
    {
      if !Authenticated(user) {
        return Unauthorized;
      }
      if author !in users {
        return NotFound;
      }
      var pair := (user.id, author);
      match verb
      case Post =>
        if user.id == author {
          return BadRequest;
        }
        if pair in subscriptions {
          return BadRequest;
        }
        subscriptions := subscriptions + {pair};
        return Created;
      case Delete =>
        if pair in subscriptions {
          subscriptions := subscriptions - {pair};
          return NoContent;
        }
        return BadRequest;
    }

    /** The `favorite` action: login required, then the recipe is looked up,
        then the relation is changed as `FavoriteStep` says. */
    method Favorite(user: User, recipe: int, verb: Verb) returns (status: Status)
      modifies this
      ensures !Authenticated(user) ==> status == Unauthorized && favorites == old(favorites)
      ensures Authenticated(user) ==>
        Outcome(favorites, status) == FavoriteStep(old(favorites), recipes, user.id, recipe, verb)
      ensures users == old(users) && recipes == old(recipes)
      ensures subscriptions == old(subscriptions) && carts == old(carts)
    {
      if !Authenticated(user) {
        return Unauthorized;
      }
      if recipe !in recipes {
        return NotFound;
      }
      var pair := (user.id, recipe);
      match verb
      case Post =>
        var verdict := ValidateFavorite(VerbName(Post), favorites, user.id, recipe);
        if verdict.Rejected? {
          return BadRequest;
        }
        favorites := favorites + {pair};
        return Created;
      case Delete =>
        if pair in favorites {
          favorites := favorites - {pair};
          return NoContent;
        }
        return BadRequest;
    }

    /** The `shopping_cart` action: the author-or-read-only permission of the
        API package at the view level, then the recipe is looked up, then the
        relation is changed as `CartStep` says. */
    method ShoppingCart(user: User, recipe: int, verb: Verb) returns (status: Status)
      modifies this
      ensures !Authenticated(user) ==> status == Unauthorized && carts == old(carts)
      ensures Authenticated(user) ==>
        Outcome(carts, status) == CartStep(old(carts), recipes, user.id, recipe, verb)
      ensures users == old(users) && recipes == old(recipes)
      ensures subscriptions == old(subscriptions) && favorites == old(favorites)
    {
      if !ApiPermissions.AuthorOrReadOnlyHasPermission(Request(VerbName(verb), user)) {
        return Unauthorized;
      }
      if recipe !in recipes {
        return NotFound;
      }
      var pair := (user.id, recipe);
      match verb
      case Post =>
        if ValidateRecipe(recipe, recipes).Err? {
          return BadRequest;
        }
        var verdict := ValidateShoppingCart(VerbName(Post), carts, user.id, recipe);
        if verdict.Rejected? {
          return BadRequest;
        }
        if pair !in carts {
          carts := carts + {pair};
          return Created;
        }
        return BadRequest;
      case Delete =>
        if pair in carts {
          carts := carts - {pair};
          return NoContent;
        }
        return BadRequest;
    }
  }

  // ---------------------------------------------------------------------
  // How the steps compose

  /** A subscription that was just created is removed by the next DELETE,
      which gives back the relation as it was. */
  lemma SubscribeThenUnsubscribe(subscriptions: set<Pair>, users: set<int>, user: int, author: int)
    requires SubscribeStep(subscriptions, users, user, author, Post).status == Created
    ensures var added := SubscribeStep(subscriptions, users, user, author, Post).pairs;
      SubscribeStep(added, users, user, author, Delete) == Outcome(subscriptions, NoContent)
  {
    var added := SubscribeStep(subscriptions, users, user, author, Post).pairs;
    assert added - {(user, author)} == subscriptions;
  }

  /** A second POST of the same subscription is refused and changes
      nothing; so is a second DELETE. */
  lemma SubscribeTwice(subscriptions: set<Pair>, users: set<int>, user: int, author: int, verb: Verb)
    requires author in users
    ensures var once := SubscribeStep(subscriptions, users, user, author, verb).pairs;
      SubscribeStep(once, users, user, author, verb) == Outcome(once, BadRequest)
  {
  }

  /** A favorite that was just added is removed by the next DELETE. */
  lemma FavoriteThenUnfavorite(favorites: set<Pair>, recipes: set<int>, user: int, recipe: int)
    requires FavoriteStep(favorites, recipes, user, recipe, Post).status == Created
    ensures var added := FavoriteStep(favorites, recipes, user, recipe, Post).pairs;
      FavoriteStep(added, recipes, user, recipe, Delete) == Outcome(favorites, NoContent)
  {
    var added := FavoriteStep(favorites, recipes, user, recipe, Post).pairs;
    assert added - {(user, recipe)} == favorites;
  }

  /** Once a pair is a favorite, whatever the state before, a repeated POST
      is refused; once it is gone, a repeated DELETE is refused. */
  lemma FavoriteTwice(favorites: set<Pair>, recipes: set<int>, user: int, recipe: int, verb: Verb)
    requires recipe in recipes
    ensures var once := FavoriteStep(favorites, recipes, user, recipe, verb).pairs;
      FavoriteStep(once, recipes, user, recipe, verb) == Outcome(once, BadRequest)
  {
  }

  /** A recipe that was just put in the cart is taken out by the next
      DELETE. */
  lemma CartAddThenRemove(carts: set<Pair>, recipes: set<int>, user: int, recipe: int)
    requires CartStep(carts, recipes, user, recipe, Post).status == Created
    ensures var added := CartStep(carts, recipes, user, recipe, Post).pairs;
      CartStep(added, recipes, user, recipe, Delete) == Outcome(carts, NoContent)
  {
    var added := CartStep(carts, recipes, user, recipe, Post).pairs;
    assert added - {(user, recipe)} == carts;
  }

  lemma CartTwice(carts: set<Pair>, recipes: set<int>, user: int, recipe: int, verb: Verb)
    requires recipe in recipes
    ensures var once := CartStep(carts, recipes, user, recipe, verb).pairs;
      CartStep(once, recipes, user, recipe, verb) == Outcome(once, BadRequest)
  {
  }

  /** The favorite and shopping-cart endpoints behave alike on the same
      relation: their guards differ only in how often the pair is checked. */
  lemma FavoriteAndCartAlike(pairs: set<Pair>, recipes: set<int>, user: int, recipe: int, verb: Verb)
    ensures FavoriteStep(pairs, recipes, user, recipe, verb) == CartStep(pairs, recipes, user, recipe, verb)
  {
  }

  /** For both routed methods, the author-or-read-only permission at the
      view level asks only for a login, like the others. */
  lemma CartPermissionIsLogin(user: User, verb: Verb)
    ensures ApiPermissions.AuthorOrReadOnlyHasPermission(Request(VerbName(verb), user)) <==>
      Authenticated(user)
  {
  }
}
