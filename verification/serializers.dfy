/** The checks the API's serializers run on incoming data, and the recipe
    limit of the subscription listing. Database lookups are parameters: the
    ids of the stored ingredients or recipes, and the stored relation pairs. */
module Serializers {
  import opened Common
  import opened Text

  /** One entry of the `ingredients` field of a recipe: an ingredient id and
      the amount of it the recipe needs. */
  datatype IngredientAmount = IngredientAmount(id: int, amount: int)

  /** The reasons a serializer refuses its input. */
  datatype ValidationError =
    | IngredientsEmpty
    | AmountBelowOne
    | NoSuchIngredient(id: int)
    | IngredientsNotUnique
    | TagsNotUnique
    | NotProvided
    | SelfSubscription
    | AlreadySubscribed
    | NotSubscribed
    | AlreadyFavorite
    | NotFavorite
    | AlreadyInCart
    | NotInCart
    | NoSuchRecipe(id: int)

  // ---------------------------------------------------------------------
  // Recipe ingredients and tags

  function Ids(value: seq<IngredientAmount>): (ids: seq<int>)
    ensures |ids| == |value|
    ensures forall i :: 0 <= i < |value| ==> ids[i] == value[i].id
  {
    seq(|value|, i requires 0 <= i < |value| => value[i].id)
  }

  /** What is wrong with a single entry, if anything: the amount is looked at
      before the id. */
  function EntryError(e: IngredientAmount, existing: set<int>): (r: Option<ValidationError>)
    ensures r == None <==> e.amount >= 1 && e.id in existing
    ensures e.amount < 1 ==> r == Some(AmountBelowOne)
    ensures e.amount >= 1 && e.id !in existing ==> r == Some(NoSuchIngredient(e.id))
  {
    if e.amount < 1 then Some(AmountBelowOne)
    else if e.id !in existing then Some(NoSuchIngredient(e.id))
    else None
  }

  /** The first `k` entries of `value` pass their own checks. */
  predicate ValidBefore(value: seq<IngredientAmount>, existing: set<int>, k: int) {
    forall i :: 0 <= i < k && i < |value| ==> EntryError(value[i], existing) == None
  }

  /** Every entry of `value` passes its own checks. */
  predicate EntriesValid(value: seq<IngredientAmount>, existing: set<int>) {
    ValidBefore(value, existing, |value|)
  }

  /** The `ingredients` field validator. The list must not be empty; the
      entries are checked in order, each amount before its id; ids must be
      unique, which is checked last by comparing the list's length with the
      size of the set of its ids. An accepted list is returned unchanged. */
  method ValidateIngredients(value: seq<IngredientAmount>, existing: set<int>) returns (r: Result<seq<IngredientAmount>, ValidationError>)
    ensures r == Err(IngredientsEmpty) <==> value == []
    ensures r.Ok? <==> value != [] && EntriesValid(value, existing) && Distinct(Ids(value))
    ensures r.Ok? ==> r.value == value
    ensures forall k ::
      (0 <= k < |value| && ValidBefore(value, existing, k) && EntryError(value[k], existing).Some?)
      ==> r == Err(EntryError(value[k], existing).value)
    ensures value != [] && EntriesValid(value, existing) && !Distinct(Ids(value)) ==>
      r == Err(IngredientsNotUnique)
  {
    if |value| < 1 {
      return Err(IngredientsEmpty);
    }
    var unique: seq<int> := [];
    for i := 0 to |value|
      invariant unique == Ids(value[..i])
      invariant ValidBefore(value, existing, i)
    {
      unique := unique + [value[i].id];
      if value[i].amount < 1 {
        FirstError(value, existing, i);
        return Err(AmountBelowOne);
      }
      if value[i].id !in existing {
        FirstError(value, existing, i);
        return Err(NoSuchIngredient(value[i].id));
      }
    }
    assert value[..|value|] == value;
    ElementsCardinality(unique);
    if |value| > |Elements(unique)| {
      return Err(IngredientsNotUnique);
    }
    return Ok(value);
  }

  /** When entry `i` is the first one with an error, no other entry is a
      first-failing one, and the whole list is not valid. */
  lemma FirstError(value: seq<IngredientAmount>, existing: set<int>, i: nat)
    requires i < |value|
    requires ValidBefore(value, existing, i)
    requires EntryError(value[i], existing).Some?
    ensures !EntriesValid(value, existing)
    ensures forall k ::
      (0 <= k < |value| && ValidBefore(value, existing, k) && EntryError(value[k], existing).Some?)
      ==> k == i
  {
  }

  /** The `tags` field validator: the tags must be pairwise distinct, which
      is checked by comparing the list's length with the size of its set. */
  function ValidateTags(value: seq<int>): (r: Result<seq<int>, ValidationError>)
    ensures r.Ok? <==> Distinct(value)
    ensures r.Ok? ==> r.value == value
    ensures r.Err? ==> r.error == TagsNotUnique
  {
    ElementsCardinality(value);
    if |value| > |Elements(value)| then Err(TagsNotUnique) else Ok(value)
  }

  // ---------------------------------------------------------------------
  // Creating a recipe

  /** A stored recipe: its author, its name, its ingredient rows and the set
      of its tags. */
  datatype Recipe = Recipe(author: int, name: string, ingredients: seq<IngredientAmount>, tags: set<int>)

  /** A present, non-empty list: the only kind Python treats as true. */
  predicate Provided<T>(field: Option<seq<T>>) {
    field.Some? && field.value != []
  }

  /** The recipes table as `create` sees it. */
  class RecipeTable {
    var recipes: seq<Recipe>

    constructor ()
      ensures recipes == []
    {
      recipes := [];
    }

    /** Stores a new recipe when both ingredients and tags were provided and
        are non-empty, and answers its index; refuses otherwise and stores
        nothing. The tags become a set, as a many-to-many field keeps them. */
    method Create(author: int, name: string, ingredients: Option<seq<IngredientAmount>>, tags: Option<seq<int>>) returns (r: Result<nat, ValidationError>)
      modifies this
      ensures r.Ok? <==> Provided(ingredients) && Provided(tags)
      ensures r.Ok? ==> r.value == |old(recipes)|
      ensures r.Ok? ==>
        recipes == old(recipes) + [Recipe(author, name, ingredients.value, Elements(tags.value))]
      ensures r.Err? ==> r.error == NotProvided && recipes == old(recipes)
    {
      if Provided(ingredients) && Provided(tags) {
        r := Ok(|recipes|);
        recipes := recipes + [Recipe(author, name, ingredients.value, Elements(tags.value))];
      } else {
        r := Err(NotProvided);
      }
    }

    /** A partial update of recipe `k`, when there is one: a name that is
        given replaces the old one; a non-empty ingredient list replaces the
        old rows; a non-empty tag list replaces the old tags. Every other
        recipe stays. Without a recipe `k` nothing changes. */
    method Update(k: nat, name: Option<string>, ingredients: Option<seq<IngredientAmount>>, tags: Option<seq<int>>) returns (found: bool)
      modifies this
      ensures found <==> k < |old(recipes)|
      ensures found ==> recipes == old(recipes)[k := Updated(old(recipes)[k], name, ingredients, tags)]
      ensures !found ==> recipes == old(recipes)
    {
      if k >= |recipes| {
        return false;
      }
      var recipe := recipes[k];
      if name.Some? {
        recipe := recipe.(name := name.value);
      }
      if Provided(ingredients) {
        recipe := recipe.(ingredients := ingredients.value);
      }
      if Provided(tags) {
        recipe := recipe.(tags := Elements(tags.value));
      }
      recipes := recipes[k := recipe];
      return true;
    }
  }

  /** Recipe `r` after a partial update: the author never changes, and a
      field changes exactly when a truthy new value for it was given. */
  function Updated(r: Recipe, name: Option<string>, ingredients: Option<seq<IngredientAmount>>, tags: Option<seq<int>>): (u: Recipe)
    ensures u.author == r.author
    ensures u.name == (if name.Some? then name.value else r.name)
    ensures Provided(ingredients) ==> u.ingredients == ingredients.value
    ensures !Provided(ingredients) ==> u.ingredients == r.ingredients
    ensures Provided(tags) ==> u.tags == Elements(tags.value)
    ensures !Provided(tags) ==> u.tags == r.tags
  {
    Recipe(r.author,
           if name.Some? then name.value else r.name,
           if Provided(ingredients) then ingredients.value else r.ingredients,
           if Provided(tags) then Elements(tags.value) else r.tags)
  }

  /** An update that gives nothing truthy leaves the recipe as it was, and
      repeating an update changes nothing more. */
  lemma UpdateIdempotent(r: Recipe, name: Option<string>, ingredients: Option<seq<IngredientAmount>>, tags: Option<seq<int>>)
    ensures Updated(r, None, None, None) == r
    ensures Updated(Updated(r, name, ingredients, tags), name, ingredients, tags) ==
      Updated(r, name, ingredients, tags)
  {
  }

  // ---------------------------------------------------------------------
  // Relation serializers

  /** The outcome of a `validate` method: the pair it returns, nothing at
      all (it fell off its end), or a validation error. */
  datatype Verdict = Accepted(data: Pair) | NoneReturned | Rejected(reason: ValidationError)

  /** A stored relation row: (user id, target id). */
  type Pair = (int, int)

  /** Subscription: a POST must not subscribe users to themselves nor repeat
      an existing subscription; a DELETE needs the subscription to exist; any
      other method returns nothing. */
  function ValidateSubscription(verb: string, subscriptions: set<Pair>, user: int, author: int): (v: Verdict)
    ensures v.Accepted? ==> v.data == (user, author)
    ensures verb == "POST" ==> (v.Accepted? <==> user != author && (user, author) !in subscriptions)
    ensures verb == "POST" && user == author ==> v == Rejected(SelfSubscription)
    ensures verb == "POST" && user != author && (user, author) in subscriptions ==>
      v == Rejected(AlreadySubscribed)
    ensures verb == "DELETE" ==> (v.Accepted? <==> (user, author) in subscriptions)
    ensures verb == "DELETE" && (user, author) !in subscriptions ==> v == Rejected(NotSubscribed)
    ensures verb != "POST" && verb != "DELETE" ==> v == NoneReturned
  {
    if verb == "POST" then
      if user == author then Rejected(SelfSubscription)
      else if (user, author) in subscriptions then Rejected(AlreadySubscribed)
      else Accepted((user, author))
    else if verb == "DELETE" then
      if (user, author) in subscriptions then Accepted((user, author))
      else Rejected(NotSubscribed)
    else NoneReturned
  }

  /** Favorite: a POST must not repeat an existing favorite; a DELETE needs
      it to exist; every other case returns the data. */
  function ValidateFavorite(verb: string, favorites: set<Pair>, user: int, recipe: int): (v: Verdict)
    ensures !v.NoneReturned?
    ensures v.Accepted? ==> v.data == (user, recipe)
    ensures verb == "POST" ==> (v.Accepted? <==> (user, recipe) !in favorites)
    ensures verb == "DELETE" ==> (v.Accepted? <==> (user, recipe) in favorites)
    ensures verb != "POST" && verb != "DELETE" ==> v.Accepted?
    ensures v.Rejected? ==> v.reason == (if verb == "POST" then AlreadyFavorite else NotFavorite)
  {
    if verb == "POST" && (user, recipe) in favorites then Rejected(AlreadyFavorite)
    else if verb == "DELETE" then
      if (user, recipe) in favorites then Accepted((user, recipe))
      else Rejected(NotFavorite)
    else Accepted((user, recipe))
  }

  /** Shopping cart: a POST must not repeat a recipe already in the cart; a
      DELETE needs it there; any other method returns nothing. */
  function ValidateShoppingCart(verb: string, carts: set<Pair>, user: int, recipe: int): (v: Verdict)
    ensures v.Accepted? ==> v.data == (user, recipe)
    ensures verb == "POST" ==> (v.Accepted? <==> (user, recipe) !in carts)
    ensures verb == "POST" && (user, recipe) in carts ==> v == Rejected(AlreadyInCart)
    ensures verb == "DELETE" ==> (v.Accepted? <==> (user, recipe) in carts)
    ensures verb == "DELETE" && (user, recipe) !in carts ==> v == Rejected(NotInCart)
    ensures verb != "POST" && verb != "DELETE" ==> v == NoneReturned
  {
    if verb == "POST" then
      if (user, recipe) in carts then Rejected(AlreadyInCart) else Accepted((user, recipe))
    else if verb == "DELETE" then
      if (user, recipe) in carts then Accepted((user, recipe)) else Rejected(NotInCart)
    else NoneReturned
  }

  /** The `recipe` field of the shopping-cart serializer must name a stored
      recipe. */
  function ValidateRecipe(recipe: int, recipes: set<int>): (r: Result<int, ValidationError>)
    ensures r.Ok? <==> recipe in recipes
    ensures r.Ok? ==> r.value == recipe
    ensures r.Err? ==> r.error == NoSuchRecipe(recipe)
  {
    if recipe in recipes then Ok(recipe) else Err(NoSuchRecipe(recipe))
  }

  /** Whichever of the two methods is asked, the favorite and shopping-cart
      validators accept the same pairs. */
  lemma FavoriteAndCartAgree(verb: string, pairs: set<Pair>, user: int, recipe: int)
    requires verb == "POST" || verb == "DELETE"
    ensures ValidateFavorite(verb, pairs, user, recipe).Accepted? ==
      ValidateShoppingCart(verb, pairs, user, recipe).Accepted?
  {
  }

  // ---------------------------------------------------------------------
  // The recipes of a followed author

  /** How many recipes a subscription lists when the request does not say. */
  const RecipesLimit: nat := 10

  /** The `recipes_limit` query parameter: missing, or the text given. */
  datatype LimitParam = Absent | Given(text: string)

  /** The `recipes` field: the listed recipes, nothing (an empty parameter is
      false, so the method returns None), or an error (the text is not an
      integer, or is negative, which a query set cannot be sliced by). */
  datatype RecipesField = Listed(items: seq<int>) | Null | Failed

  function Min(a: int, b: int): int {
    if a <= b then a else b
  }

  /** The author's recipes, cut to the limit: the default when the parameter
      is missing, none at all for an empty parameter, and otherwise its
      integer value. */
  function GetRecipes(recipes: seq<int>, limit: LimitParam): (f: RecipesField)
    ensures f.Listed? ==> f.items <= recipes
    ensures limit.Absent? ==> f.Listed? && |f.items| == Min(RecipesLimit, |recipes|)
    ensures limit == Given("") ==> f.Null?
    ensures limit.Given? && limit.text != "" ==>
      (f.Failed? <==> ParseInt(limit.text).None? || ParseInt(limit.text).value < 0)
    ensures limit.Given? && ParseInt(limit.text).Some? && ParseInt(limit.text).value >= 0 ==>
      f.Listed? && |f.items| == Min(ParseInt(limit.text).value, |recipes|)
  {
    match limit
    case Absent => Listed(recipes[..Min(RecipesLimit, |recipes|)])
    case Given(text) =>
      if text == "" then Null
      else match ParseInt(text)
        case None => Failed
        case Some(n) => if n < 0 then Failed else Listed(recipes[..Min(n, |recipes|)])
  }

  /** Asking for the default explicitly changes nothing. */
  lemma ExplicitDefaultLimit(recipes: seq<int>)
    ensures GetRecipes(recipes, Given(ShowInt(RecipesLimit))) == GetRecipes(recipes, Absent)
  {
    ParseShowInt(RecipesLimit);
  }

  /** Any limit written as a number that is not negative lists that many
      recipes, or all of them when there are fewer. */
  lemma ShownLimit(recipes: seq<int>, n: nat)
    ensures GetRecipes(recipes, Given(ShowInt(n))) == Listed(recipes[..Min(n, |recipes|)])
  {
    ParseShowInt(n);
  }

  /** A limit of "0" is a non-empty text, so it lists nothing rather than
      returning None. */
  lemma ZeroLimitListsNothing(recipes: seq<int>)
    ensures GetRecipes(recipes, Given("0")) == Listed([])
  {
    ShownLimit(recipes, 0);
    assert ShowInt(0) == "0";
  }
}
