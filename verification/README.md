# Foodgram API core, modelled in Dafny

This project models the logic at the core of the Foodgram recipe-sharing backend (a Django REST
framework API):

- **The shopping-list export.** The view `download_shopping_cart` sums the ingredient rows of every
  recipe in the user's cart into an insertion-ordered dict keyed by ingredient name. It then writes
  one line per name: the name capitalized, the unit in parentheses, and the total.
- **The relation endpoints.** `subscribe`, `favorite` and `shopping_cart` each add a
  (user, target) pair to a stored relation on POST and remove it on DELETE. Each answers
  201, 204, 400, 401 or 404.
- **The serializer checks.**
  - The recipe's ingredients must be a non-empty list with every amount at least 1, every id
    existing, and unique ids.
  - Its tags must be unique.
  - `create` needs both ingredients and tags; `update` is partial.
  - The `validate` methods of the subscription, favorite and shopping-cart serializers.
  - The `recipes_limit` cut of a followed author's recipes.
- **The permission classes.** Author-or-read-only, admin-or-read-only and
  authenticated-or-list-only, as boolean functions of the request and the object.

Every database query is a parameter:

- the rows the cart query returns;
- the set of stored ingredient, user or recipe ids;
- the relation as a set of id pairs.

Modules:

| file | module | models |
|---|---|---|
| common.dfy | `Common` | `Option`, `Result`, distinctness, and the set of a list's elements with its size (Python's `len(set(xs))`) |
| text.dfy | `Text` | `str.capitalize` over ASCII, the decimal form of an integer written by an f-string, and `int()` reading it back |
| shopping_list.dfy | `ShoppingList` | `download_shopping_cart`: its two loops as methods, proved against reference functions |
| auth.dfy | `Auth` | requests, users, the framework's safe methods |
| permissions.dfy | `ApiPermissions` | `api/permissions.py` |
| my_permissions.dfy | `MyPermissions` | `api/my_permissions.py` |
| serializers.dfy | `Serializers` | the validators, `create`/`update` on a recipe table class, `get_recipes` |
| relations.dfy | `Relations` | the three endpoints on a `Store` class, with pure step functions that specify them |

Three points of the code that a reader might not expect, and that the model keeps:

- **Capitalization.** Python's `str.capitalize` lowercases everything after the first character.
  So "BROWN Sugar" is listed as "Brown sugar", not as "BROWN Sugar" with only its first letter
  raised.
- **Units.** A name that appears again keeps the unit of its first row, whatever unit the later
  rows carry.
- **Favorite and cart POST.** A POST for an existing pair is refused by the serializer's `validate`
  (400). The shopping-cart view then checks the pair a second time. `Relations.FavoriteAndCartAlike`
  shows that the second check never decides anything.

## Model

| member | source | states |
|---|---|---|
| Common.Elements | backend/api/serializers.py:196 | `set(...)` of a list holds exactly the list's elements. |
| Common.ElementsCardinality | backend/api/serializers.py:196-197 | The set of a list's elements is never larger than the list. It is exactly as large iff the elements are pairwise distinct. This is the ground for the "length versus set size" uniqueness tests. |
| Text.Capitalize | backend/api/views.py:263 | The length is kept. The first character is upper-cased. Every later character is the lower-case of the input's. |
| Text.CapitalizeKeepsLetters | backend/api/views.py:263 | Capitalizing changes case only: lower-casing the result gives the lower-cased input. |
| Text.CapitalizeIdempotent | backend/api/views.py:263 | Capitalizing a capitalized name changes nothing. |
| Text.ShowInt | backend/api/views.py:263 | The f-string form of an integer is canonical: an optional '-', then at least one digit, never '+', and no leading '0' unless the whole text is "0". It starts with '-' iff the integer is negative. |
| Text.ParseInt | backend/api/serializers.py:335 | `int()` gives a value exactly for an optional '+' or '-' followed by at least one digit, and an error for every other text. A negative value comes only from a leading '-'. |
| Text.ParseShowInt | backend/api/views.py:263 | Reading back the decimal form an f-string writes gives the same integer, for every integer. |
| Text.ShowParseInt | backend/api/views.py:263 | The converse: `int()` reads every canonical text, and the f-string writes the value back as that same text. |
| Text.PlusAndZerosKeepValue | backend/api/serializers.py:335 | `int()` reads a '+' sign and a leading zero as changing nothing ("+5" and "05" are 5), and a '-' sign as negation ("-0" is 0). With `ShowParseInt` this fixes the value of every text `int()` accepts. |
| Text.LeadingZeroValue | backend/api/serializers.py:335 | A leading '0' does not change the value of a digit run. |
| Text.ValueDigitsRoundTrip | backend/api/views.py:263 | A digit string without a leading zero is exactly the decimal form of its own value. |
| ShoppingList.FirstIndex | backend/api/views.py:258-259 | For a name the rows contain: the index of a row with that name, with no earlier row of that name. |
| ShoppingList.DistinctNamesMeaning | backend/api/views.py:258-261 | The dict's key order holds each name of the rows exactly once, and nothing else. |
| ShoppingList.SummedDictMeaning | backend/api/views.py:258-261 | Specifies `SummedDict`, the dict the first loop builds. After the loop, the dict's keys are exactly the names of the rows. Each value is the unit of the name's first row and the sum of the amounts of all its rows. |
| ShoppingList.Summary | backend/api/views.py:254-261 | One line per distinct name, names pairwise distinct. Each line carries the first-seen unit and the total of that name. |
| ShoppingList.FormatAll | backend/api/views.py:262-263 | One text line per aggregated line, in the same order, each formatted as the view writes it. |
| ShoppingList.SumByName | backend/api/views.py:253-261 | The first loop: the insertion order and the dict it builds equal the reference key order and dict for all rows. |
| ShoppingList.WriteLines | backend/api/views.py:262-263 | The second loop: walking the dict in insertion order writes exactly the formatted summary. |
| ShoppingList.DownloadShoppingCart | backend/api/views.py:244-267 | The view returns the formatted summary: one line per distinct name. Its concatenation is the downloaded file. |
| ShoppingList.SumConserved | backend/api/views.py:254-261 | The totals of the list add up to the sum of all amounts the query returned. |
| ShoppingList.TotalOfDistinctNames | backend/api/views.py:258-261 | Summing each distinct name's total gives the sum of all amounts. |
| ShoppingList.DistinctNamesOrder | backend/api/views.py:258-259 | Later keys have later first rows. |
| ShoppingList.FirstOccurrenceOrder | backend/api/views.py:258-263 | The lines follow first occurrence in the query, not alphabetical order. |
| ShoppingList.FirstLineIsFirstRow | backend/api/views.py:258-263 | A non-empty cart's list starts with the ingredient of the first row. |
| ShoppingList.EmptyCartEmptyReport | backend/api/views.py:252-263 | An empty cart yields an empty file. |
| ShoppingList.LineShape | backend/api/views.py:263 | Specifies `FormatLine`. A line is: the capitalized name, " (", the unit, "):  ", exactly the f-string form of the total (whose digits read back as the total), and a newline. |
| ShoppingList.FormatAllStep | backend/api/views.py:262-263 | Formatting one more aggregated line appends exactly its text line to the text. |
| ShoppingList.Report | backend/api/views.py:264-265 | The file holds at least eight characters for every distinct ingredient name of the cart. |
| ShoppingList.ConcatLength | backend/api/views.py:264-265 | Joining chunks of at least `m` characters gives at least `m` characters per chunk. |
| ShoppingList.ConcatAppend | backend/api/views.py:264-265 | Specifies `Concat`, the join of the response chunks. Joining the chunks of two lists one after the other is the first joined text followed by the second. |
| ShoppingList.FlourAndSaltReport | backend/api/views.py:244-267 | Rows flour 200 g, salt 1 tsp, flour 300 g give the file "Flour (g):  500\nSalt (tsp):  1\n". |
| Auth.IsSafe | backend/api/my_permissions.py:11 | GET is a safe method; POST, PUT, PATCH and DELETE are not. |
| ApiPermissions.AuthorOrReadOnlyHasPermission | backend/api/permissions.py:10-12 | A safe method is always allowed. A non-safe method is allowed iff the user is logged in. |
| ApiPermissions.AuthorOrReadOnlyHasObjectPermission | backend/api/permissions.py:14-16 | A safe method is always allowed. A non-safe method is allowed iff the user is the object's author. |
| ApiPermissions.ObjectPermissionImpliesPermission | backend/api/permissions.py:10-16 | The object check never admits what the view check refused. |
| ApiPermissions.OthersCannotWrite | backend/api/permissions.py:14-16 | A non-safe method on another user's object is refused. |
| MyPermissions.AuthorOrReadOnlyHasPermission | backend/api/my_permissions.py:10-12 | A safe method is always allowed. A non-safe one is allowed iff the user is logged in. |
| MyPermissions.AuthorOrReadOnlyHasObjectPermission | backend/api/my_permissions.py:14-16 | A safe method is always allowed. A non-safe one is allowed iff the user is the author. |
| MyPermissions.AuthorOrReadOnlyAgrees | backend/api/my_permissions.py:4-16 | The two author-or-read-only classes decide every request identically. |
| MyPermissions.AdminOrReadOnlyHasPermission | backend/api/my_permissions.py:25-27 | A safe method is always allowed. A non-safe one is allowed iff the user is logged in. |
| MyPermissions.AdminOrReadOnlyHasObjectPermission | backend/api/my_permissions.py:29-31 | A safe method is always allowed. A non-safe one is allowed iff the user is staff. |
| MyPermissions.AdminObjectPermissionImpliesPermission | backend/api/my_permissions.py:25-31 | Staff are logged in, so the object check never admits what the view check refused. |
| MyPermissions.AuthenticatedOrListOnlyHasPermission | backend/api/my_permissions.py:35-37 | Allowed iff the method is safe and the user is logged in. Every non-safe method is refused. |
| MyPermissions.AuthenticatedOrListOnlyHasObjectPermission | backend/api/my_permissions.py:39-42 | Staff are always allowed. Others are allowed iff the method is safe and they are logged in. |
| MyPermissions.ListOnlyStaffClauseUnreachable | backend/api/my_permissions.py:35-42 | With both checks, a request passes exactly when it is a safe method from a logged-in user. The staff clause never helps. |
| MyPermissions.AnonymousCannotWrite | backend/api/my_permissions.py:10-37 | An anonymous user is refused every non-safe method at the view level by all three classes, and by the API package's class. |
| Serializers.EntryError | backend/api/serializers.py:188-195 | An entry passes iff its amount is at least 1 and its id exists. A low amount is reported before a missing id. |
| Serializers.ValidateIngredients | backend/api/serializers.py:180-198 | Three cases. (1) Empty iff the error is "empty". (2) Otherwise accepted iff every entry passes and the ids are distinct; an accepted list is returned unchanged. (3) Otherwise the first failing entry's error is reported, or "not unique" when every entry passes. |
| Serializers.ValidateTags | backend/api/serializers.py:200-204 | Accepted iff the tags are pairwise distinct. An accepted list is returned unchanged; otherwise the error is "not unique". |
| Serializers.RecipeTable.Create | backend/api/serializers.py:131-174 | Succeeds iff ingredients and tags are both present and non-empty. It then appends the recipe with its ingredient rows and its tag set. Otherwise nothing is stored. |
| Serializers.RecipeTable.Update | backend/api/serializers.py:144-161 | Only the updated recipe changes, and it becomes `Updated` of the old one. |
| Serializers.Updated | backend/api/serializers.py:144-161 | The author never changes. A given name replaces the old name. A non-empty ingredient or tag list replaces the old one, and an empty or missing one keeps it. |
| Serializers.UpdateIdempotent | backend/api/serializers.py:144-161 | An update with nothing truthy keeps the recipe. Repeating an update changes nothing more. |
| Serializers.ValidateSubscription | backend/api/serializers.py:286-308 | POST: accepted iff not a self-subscription and not yet subscribed, with self-subscription reported first. DELETE: accepted iff subscribed. Other methods return nothing. Accepted data is the pair. |
| Serializers.ValidateFavorite | backend/api/serializers.py:371-388 | POST: accepted iff not yet a favorite. DELETE: accepted iff a favorite. Any other method gets the data back. It never returns nothing. |
| Serializers.ValidateRecipe | backend/api/serializers.py:408-413 | Accepted iff the recipe exists, and returned unchanged. |
| Serializers.ValidateShoppingCart | backend/api/serializers.py:415-433 | POST: accepted iff not yet in the cart. DELETE: accepted iff in the cart. Other methods return nothing. |
| Serializers.FavoriteAndCartAgree | backend/api/serializers.py:371-433 | For POST and DELETE, the favorite and cart validators accept the same pairs. |
| Serializers.GetRecipes | backend/api/serializers.py:325-336 | Listed recipes are a prefix of the author's. With no parameter: min(10, count). With an empty parameter: nothing (None). Text that is not an integer, or is negative: an error. Otherwise: min(limit, count). |
| Serializers.ExplicitDefaultLimit | backend/api/serializers.py:325-336 | Passing "10" explicitly gives the same listing as passing nothing. |
| Serializers.ShownLimit | backend/api/serializers.py:333-336 | Any non-negative limit lists exactly the first min(limit, count) recipes. |
| Serializers.ZeroLimitListsNothing | backend/api/serializers.py:334-336 | "0" is truthy text, so it lists no recipes rather than returning None. |
| Relations.VerbName | backend/api/views.py:174 | The two routed methods are not safe methods. |
| Relations.Code | backend/api/views.py:96-114 | Status codes: success (below 300) is exactly 201 and 204. |
| Relations.SubscribeStep | backend/api/views.py:80-114 | 404 iff the author does not exist. POST gives 201 iff the pair is new and not a self-subscription, and then adds exactly that pair. DELETE gives 204 iff the pair exists, and then removes exactly it. 201 comes only from POST and 204 only from DELETE. Every 400 or 404 leaves the set unchanged. No other pair ever changes. |
| Relations.FavoriteStep | backend/api/views.py:179-199 | 404 iff the recipe does not exist. POST gives 201 iff the pair is absent (through the favorite serializer), and then adds it. DELETE gives 204 iff the pair is present, and then removes it. 201 comes only from POST and 204 only from DELETE. No other pair changes. |
| Relations.CartStep | backend/api/views.py:207-237 | Same as FavoriteStep, for the cart: 201 iff absent (the serializer check, then the view's own check), 204 iff present. 201 comes only from POST and 204 only from DELETE. No other pair changes. |
| Relations.Store.constructor | backend/api/views.py:58-59 | Starts with the given users and recipes and empty relations. |
| Relations.Store.Subscribe | backend/api/views.py:71-114 | Anonymous: 401, nothing changes. Otherwise the new subscriptions and status are `SubscribeStep`'s. Users, recipes, favorites and carts never change. |
| Relations.Store.Favorite | backend/api/views.py:173-199 | Anonymous: 401, nothing changes. Otherwise the favorites and status are `FavoriteStep`'s. The other relations never change. |
| Relations.Store.ShoppingCart | backend/api/views.py:201-237 | The view-level author-or-read-only check refuses anonymous users with 401. Otherwise the carts and status are `CartStep`'s. The other relations never change. |
| Relations.SubscribeThenUnsubscribe | backend/api/views.py:96-114 | A DELETE right after a successful POST restores the subscriptions and answers 204. |
| Relations.SubscribeTwice | backend/api/views.py:96-114 | Repeating a POST, or a DELETE, for an existing author answers 400 and changes nothing. |
| Relations.FavoriteThenUnfavorite | backend/api/views.py:182-199 | A DELETE right after a successful POST restores the favorites. |
| Relations.FavoriteTwice | backend/api/views.py:182-199 | A repeated POST or DELETE of a favorite answers 400 and changes nothing. |
| Relations.CartAddThenRemove | backend/api/views.py:210-237 | A DELETE right after a successful POST restores the cart. |
| Relations.CartTwice | backend/api/views.py:210-237 | A repeated POST or DELETE of a cart item answers 400 and changes nothing. |
| Relations.FavoriteAndCartAlike | backend/api/views.py:179-237 | The favorite and cart endpoints compute the same relation and status. The cart view's second pair check never decides anything. |
| Relations.CartPermissionIsLogin | backend/api/views.py:204 | For POST and DELETE, the cart action's author-or-read-only view check just asks for a login. |

## Left out

- Django ORM queries, `bulk_create`, `transaction.atomic` and `get_object_or_404` are framework
  code. They become parameters: the rows a query returns, the sets of stored ids, and the stored
  relations.
- The response bodies and headers, including the `Content-Disposition` of the shopping-list file,
  are HTTP plumbing. Only the status and the text lines are kept.
- `Base64ImageField` (backend/api/serializers.py:65-71) is image decoding through library calls.
  It is not part of this model.
- The following are read-only ORM look-ups with nothing to state beyond the query:
  - the djoser user serializers and view set, routers, pagination and the filter classes;
  - `get_is_subscribed`, `get_is_favorited`, `get_is_in_shopping_cart`, `get_recipes_count` and
    the `to_representation` methods;
  - the `subscriptions` listing.
- The ingredient import command, the models, migrations and admin registrations are file I/O or
  declarative schema. They are not part of this model.
- ShoppingList.DownloadShoppingCart: the row order is whatever the cart query returns. The model
  takes it as given and proves order properties relative to it.
- ShoppingList.DownloadShoppingCart: the action declares no permission class of its own
  (backend/api/views.py:240-242). It inherits author-or-read-only from the view set
  (backend/api/views.py:145), and that class admits an anonymous GET
  (backend/api/permissions.py:10-12). The cart query then filters on an anonymous user
  (backend/api/views.py:245-246). Django raises there instead of returning a file, and the
  framework answers with a server error. The model takes the rows of a logged-in user's cart as
  given and does not model that error response.
- Text.Capitalize: covers ASCII letters only. Python's Unicode case mapping, such as title-case
  digraphs or 'ß', is not modelled.
- Text.ParseInt: accepts only an optional sign followed by ASCII digits. `int()` also accepts
  surrounding whitespace, underscores between digits and non-ASCII digits; those texts read as
  errors here.
- Serializers.Recipe: keeps the author, name, ingredient rows and tag set only. `update` also
  replaces `text` and `cooking_time` when they are given, exactly as it does `name`
  (backend/api/serializers.py:148-153), and the image is stored by the model serializer's own
  `update`. These fields are not modelled.
- Serializers.GetRecipes: a negative limit is an error because a Django query set refuses negative
  slicing. Only the listed recipes are kept, not their serialized fields.
- Relations.Store.Subscribe, Relations.Store.Favorite, Relations.Store.ShoppingCart:
  - An anonymous request is answered 401. The framework answers 401 or 403 depending on the
    authentication class, and the model does not tell them apart.
  - Methods other than POST and DELETE are refused with 405 by the view's method dispatch. That
    happens after authentication and the permission checks, so an anonymous request with such a
    method is answered 401 or 403 first. None of this is modelled.
  - Concurrent requests and database uniqueness constraints are not modelled.
