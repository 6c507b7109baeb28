# Shopping cart and catalog routes of an e-commerce storefront, in Dafny

This project models the part of the storefront that keeps state and enforces rules.

- **Server cart** (`routes/cart.js`): the class `CartRoutes.CartStore` maps each user to an
  ordered list of lines `(itemId, quantity, price)`. Its methods are the six handlers: get,
  add, update, remove, clear and count. Get returns the user's lines and count returns the
  quantity sum; neither can fail. Add, update, remove and clear return either the updated
  line list or one of the handler's error outcomes. Add and update also check the request against a
  read-only catalog `itemId → Item`; get, remove, clear and count read no catalog. The
  proved facts are:
  - the order of the checks;
  - a failed request changes nothing and creates no cart;
  - adding merges into the existing line and re-captures the current catalog price;
  - remove filters and keeps order;
  - count is the quantity sum;
  - the store invariant: every stored line has quantity ≥ 1, and no item has two lines, for
    item ids spelled as the database prints them (see "## Left out").
- **Browser cart** (`client/src/contexts/CartContext.js`): the class
  `CartContext.CartProvider` holds the `cart` and `cartCount` state and the `localCart`
  entry of local storage. Its methods are the signed-out branches of add, remove, update
  and clear. They use the same line matching as the server, with no checks and a captured
  price of 0. The signed-in branches are modelled as applying the server's reply. The
  class invariant is that `cartCount` equals the sum of the quantities of the cart in state,
  and that the stored local cart holds at most one line per item.
- **Catalog routes** (`routes/items.js`): the listing query builder, modelled as a filter,
  a sort key and pagination. Also modelled: the create/update validation chains, the
  placeholder image, and the get/update/delete routes with their 404s, in the class
  `CatalogRoutes.ItemStore`.
- **Item schema** (`models/Item.js`): the validity predicate `ItemSchema.Valid` and the
  defaults that `ItemSchema.Build` fills in. Name and description lengths are measured as
  JavaScript measures them, in UTF-16 code units (`ItemSchema.Utf16Length`).

`CartLines` holds what both carts share: `findIndex` as a function and as a loop, the
lookup of an item's line, the `reduce` that sums quantities, and the `filter` that drops an
item. `RequestBody` holds the express-validator checks. Prices are integer cents.

Three facts about the handlers shape the model:
- Removing from or clearing a cart that was never created returns "Cart not found" (404);
  it is not treated as an empty cart (routes/cart.js:146-149, 170-173).
- The update handler checks in this order: validation, item, stock, cart, then line
  (routes/cart.js:94-124).
- No total-amount invariant is stated for server carts, because `models/Cart.js` is not
  part of this model.

## Model

| member | source | states |
|---|---|---|
| `ItemSchema.Utf16Length` | models/Item.js:7 | the length in UTF-16 code units lies between the number of characters and twice that |
| `ItemSchema.Utf16LengthOfBmp` | models/Item.js:7 | characters below U+10000 count once each |
| `ItemSchema.Utf16LengthOfAstral` | models/Item.js:7 | characters at or above U+10000 count twice each |
| `ItemSchema.EmojiNameTooLong` | models/Item.js:5-8 | for a valid item, a name of sixty emoji (120 code units) breaks the 100-unit limit, while sixty letters stay within it |
| `ItemSchema.Valid` | models/Item.js:3-43 | the schema's constraints on a stored item: name 1..100 and description 1..500 UTF-16 code units, price ≥ 0, category one of the eight, stock ≥ 0, rating in [0, 5]. No ensures: `BuildAcceptsExactlyValid` ties it to the validators |
| `ItemSchema.PathAccepts` | models/Item.js:4-39 | each path's validator on a draft after defaults: a required string rejects absence and the empty string; the `min`, `max`, `maxlength` and `enum` bounds. No ensures: `Rejected` and `Build` state what follows from it |
| `ItemSchema.Rejected` | models/Item.js:3-43 | a path is listed exactly when its validator rejects the draft; name and description lengths count UTF-16 code units |
| `ItemSchema.Build` | models/Item.js:3-46 | the draft is accepted exactly when every validator accepts it, with lengths in UTF-16 code units. An accepted item is `Valid` and keeps the given fields. When left out, image becomes the placeholder and stock, rating and reviews become 0. A rejection lists each failing path |
| `ItemSchema.BuildAcceptsExactlyValid` | models/Item.js:4-39 | an item written out in full passes the schema unchanged if and only if it is `Valid`: name 1..100 UTF-16 code units, description 1..500, price ≥ 0, category one of the eight, stock ≥ 0, rating in [0, 5] |
| `ItemSchema.DefaultsApplied` | models/Item.js:24-43 | a draft without image, stock, rating or reviews becomes an item with the placeholder image and 0 stock, rating and reviews |
| `CartLines.IndexOf` | routes/cart.js:60-62 | the result is -1 exactly when no line has the id. Otherwise it is the first position holding the id |
| `CartLines.FindIndex` | routes/cart.js:118-120 | the handlers' linear search returns exactly `IndexOf` |
| `CartLines.RemoveAll` | routes/cart.js:151-153 | a line survives exactly when it was in the list and belongs to another item. The list never grows |
| `CartLines.SumQuantities` | routes/cart.js:196 | the `reduce` that sums the line quantities from 0. No ensures: its properties are `SumAppend`, `SumReplace`, `RemoveAllSum` and `CountAtLeastLines` |
| `CartLines.SumAppend` | routes/cart.js:196 | the quantity sum of a concatenation is the sum of the sums |
| `CartLines.SumReplace` | client/src/contexts/CartContext.js:119 | overwriting one line changes the sum by the quantity difference |
| `CartLines.ReplaceFound` | routes/cart.js:64-67 | overwriting the found line: that item's lookup gives the new line and every other lookup is unchanged. The sum moves by the quantity difference and distinct ids stay distinct |
| `CartLines.AppendNew` | routes/cart.js:68-75 | pushing a line for an absent item: its lookup gives the new line and the others are unchanged. The sum grows by its quantity and distinct ids stay distinct |
| `CartLines.RemoveAllAbsent` | routes/cart.js:151-153 | removing an item the cart does not hold returns the same list |
| `CartLines.RemoveAllConcat` | client/src/contexts/CartContext.js:98 | the filter distributes over concatenation, so survivors keep their order |
| `CartLines.RemoveAllDistinct` | routes/cart.js:151 | filtering keeps item ids distinct |
| `CartLines.RemoveAllLookup` | routes/cart.js:152 | after the filter the item has no line, and every other item's line is unchanged |
| `CartLines.RemoveAllSum` | routes/cart.js:196 | with distinct ids, removing an item lowers the sum by exactly its quantity |
| `CartRoutes.AddValidationErrors` | routes/cart.js:30-38 | "itemId" is reported exactly when the item id is missing or empty. "quantity" is reported exactly when the quantity is not an integer ≥ 1. No error means both hold |
| `RequestBody.NotEmpty` | routes/cart.js:31 | the not-empty check: present and not the empty string. No ensures: it is used by the validation-error functions, whose contracts state it |
| `RequestBody.IsNumeric` | routes/items.js:103 | the numeric check: present and a number. No ensures, as above |
| `RequestBody.IsIntAtLeast` | routes/cart.js:32 | the integer check with a lower bound (1 for cart quantities, 0 for stock). No ensures, as above |
| `RequestBody.OptionalNotEmpty` | routes/items.js:135-136 | an optional not-empty check: only an absent field skips it, so an empty string fails. No ensures, as above |
| `RequestBody.OptionalNumeric` | routes/items.js:137 | an optional numeric check: only an absent field skips it. No ensures, as above |
| `RequestBody.OptionalIntAtLeast` | routes/items.js:138 | an optional integer check with a lower bound: only an absent field skips it. No ensures, as above |
| `RequestBody.Report` | routes/cart.js:35-37 | one check's entry in the error array: its field exactly when the check fails, nothing when it passes, and never another field |
| `CartRoutes.CheckAdd` | routes/cart.js:31-51 | add succeeds exactly for a valid request whose item exists with stock ≥ the requested quantity, and yields that item. A validation error is reported exactly when validation fails. "Item not found" exactly when validation passed and the item is unknown. "Insufficient stock" exactly when the item exists and stock < quantity. A validation error lists exactly `AddValidationErrors`. The cart plays no part |
| `CartRoutes.CheckUpdate` | routes/cart.js:91-111 | update first checks the quantity, then the item, then the stock, with the same exact conditions as for add |
| `CartRoutes.MergeAdd` | routes/cart.js:59-75 | the list keeps its length when the item was held and grows by one otherwise (its effect is in `MergeAddEffect`) |
| `CartRoutes.MergeLine` | routes/cart.js:59-75 | the handler's search-then-raise-or-push, run step by step, gives exactly `MergeAdd` |
| `CartRoutes.Refresh` | routes/cart.js:126-127 | the list keeps its length (its effect is in `RefreshEffect`) |
| `CartRoutes.MergeAddEffect` | routes/cart.js:60-75 | after add, the item's line holds the old quantity (0 if absent) plus `q`, at the new catalog price. An absent item's line is appended at the end. Other lines keep their positions and lookups. The count grows by exactly `q` |
| `CartRoutes.MergeAddWellFormed` | routes/cart.js:64-75 | adding a quantity ≥ 1 keeps at most one line per item and all quantities ≥ 1 |
| `CartRoutes.RefreshEffect` | routes/cart.js:118-127 | after update, the item's only line holds exactly `q` at the new price. Other lines are unchanged. The count moves by `q` minus the old quantity. Well-formedness is kept |
| `CartRoutes.RemoveEffect` | routes/cart.js:151-153 | after remove, the item has no line and the others are unchanged. The count falls by the item's quantity and well-formedness is kept |
| `CartRoutes.MergedQuantityMayExceedStock` | routes/cart.js:49-51 | the stock check sees only the requested quantity. With 3 held and stock 4, adding 2 passes and leaves 5 > stock |
| `CartRoutes.AddTwiceMerges` | routes/cart.js:60-75 | adding an item twice to an empty cart gives one line with the summed quantity, at the second price |
| `CartRoutes.CountAtLeastLines` | routes/cart.js:196 | for a well-formed cart the count is at least the number of lines |
| `CartRoutes.CartStore.GetCart` | routes/cart.js:14-20 | returns the user's lines. A user without a cart gets an empty one created; otherwise nothing changes |
| `CartRoutes.CartStore.Add` | routes/cart.js:30-80 | a failed check returns that error and leaves the store unchanged, with no cart created. Otherwise the user's cart (created if absent) becomes `MergeAdd` of its lines at the catalog price and is returned. The store invariant is kept |
| `CartRoutes.CartStore.Update` | routes/cart.js:90-132 | the errors come in order: the `CheckUpdate` error, then "Cart not found", then "Item not found in cart". Any error leaves the store unchanged. On success the cart becomes `Refresh` at the catalog price |
| `CartRoutes.CartStore.Remove` | routes/cart.js:142-158 | "Cart not found" without a cart, with nothing changed. Otherwise the cart becomes `RemoveAll` of its lines, which is a no-op for an absent item |
| `CartRoutes.CartStore.Clear` | routes/cart.js:168-178 | "Cart not found" without a cart, with nothing changed. Otherwise the line list becomes empty |
| `CartRoutes.CartStore.Count` | routes/cart.js:188-197 | the sum of the user's line quantities, and 0 without a cart. It is at least the number of lines and changes nothing |
| `CartContext.LocalAdd` | client/src/contexts/CartContext.js:67-78 | the list keeps its length when the item was held and grows by one otherwise (its effect is in `LocalAddEffect`) |
| `CartContext.LocalUpdate` | client/src/contexts/CartContext.js:117-120 | the list keeps its length (its effect is in `LocalUpdateEffect`) |
| `CartContext.LocalAddEffect` | client/src/contexts/CartContext.js:67-78 | a held item's line grows by `q` with its price untouched. Otherwise `(id, q, 0)` is appended. Other lines are unchanged, the count grows by `q`, and distinct ids stay distinct |
| `CartContext.LocalUpdateEffect` | client/src/contexts/CartContext.js:117-120 | a held item's quantity becomes `q` with its price untouched. An unheld item leaves the list identical. Other lines are unchanged and the count moves by the difference |
| `CartContext.LocalRemoveEffect` | client/src/contexts/CartContext.js:98 | the item's lines go and the other lines are unchanged. An absent item leaves the list identical. The count falls by the item's quantity |
| `CartContext.CartProvider.constructor` | client/src/contexts/CartContext.js:16-17 | the state starts as `{items: [], totalAmount: 0}` with a count of 0, over a stored cart with one line per item |
| `CartContext.CartProvider.LocalCart` | client/src/contexts/CartContext.js:64 | the parsed `localCart` entry, or `{items: [], totalAmount: 0}` when it is absent. No ensures: the methods below state their results through it |
| `CartContext.CartProvider.LoadLocal` | client/src/contexts/CartContext.js:37-46 | a stored local cart becomes the state and the count is recomputed. Without one nothing changes |
| `CartContext.CartProvider.ApplyServerCart` | client/src/contexts/CartContext.js:21-34 | a successful server reply becomes the state, with the count equal to its quantity sum. A failed request changes nothing |
| `CartContext.CartProvider.AddToCart` | client/src/contexts/CartContext.js:55-83 | a missing local cart reads as empty. The items become `LocalAdd` with default quantity 1. `totalAmount` keeps its stored value, the result is stored, and the count is the old sum plus the quantity |
| `CartContext.CartProvider.RemoveFromCart` | client/src/contexts/CartContext.js:96-102 | the items become `RemoveAll` of the local cart. `totalAmount` is kept, the result is stored, and the count is the old local sum minus the item's quantity |
| `CartContext.CartProvider.UpdateQuantity` | client/src/contexts/CartContext.js:115-124 | the items become `LocalUpdate` of the local cart. `totalAmount` is kept, the result is stored, and the count is the old local sum with the item's quantity replaced by the new one (unchanged for an unheld item) |
| `CartContext.CartProvider.ClearCart` | client/src/contexts/CartContext.js:131-146 | on both paths the state becomes `{items: [], totalAmount: 0}` with a count of 0. Signed out, the stored cart is removed. Signed in, a failed request changes nothing |
| `CatalogRoutes.BuildFilter` | routes/items.js:15-33 | an item matches the built filter exactly when its category is the requested one (unless none or 'all' was requested) and its price lies within the given bounds. A category key is present exactly when the category is non-empty and not 'all'. A price key is present exactly when a bound is given, carrying `$gte`/`$lte` only for the bounds given |
| `CatalogRoutes.BuildSort` | routes/items.js:35-56 | price-low gives price ascending, price-high price descending, name name ascending, and rating rating descending. createdAt descending is chosen exactly for any other or absent value |
| `CatalogRoutes.CeilDiv` | routes/items.js:69 | the result is the ceiling of `a / b` for either sign of `b` |
| `CatalogRoutes.Paginate` | routes/items.js:58-70 | `currentPage` is the page and the limit is as given, with defaults 1 and 10. `skip` is `(page − 1) × limit`. `totalPages` is null exactly when the limit is 0, and otherwise `CeilDiv(total, limit)` |
| `CatalogRoutes.DefaultPaging` | routes/items.js:13 | with neither page nor limit given: skip 0, limit 10, page 1, and `ceil(total / 10)` pages |
| `CatalogRoutes.PageWithinTotal` | routes/items.js:58-70 | for page, limit ≥ 1: the page starts before the end (`skip < total`) exactly when page ≤ `totalPages`, and the last page holds 1..limit items |
| `CatalogRoutes.CreateValidationErrors` | routes/items.js:100-111 | each field is reported exactly when its check fails: name, description and category not empty, price numeric, stock an integer ≥ 0 |
| `CatalogRoutes.ImageOrPlaceholder` | routes/items.js:120 | the stored image is never empty: a non-empty image is kept, and an absent or empty one becomes the placeholder |
| `CatalogRoutes.Candidate` | routes/items.js:115-122 | the item the create route hands to the schema: the body's fields, the image or placeholder, rating and reviews 0. No ensures: `CreateOutcome` states its fate |
| `CatalogRoutes.CreateOutcome` | routes/items.js:100-124 | a validation error is returned exactly when the route checks fail. A server error is returned exactly when they pass but the schema refuses the item. Otherwise the created item is `Valid`, has the placeholder for an absent or empty image, and has rating and reviews 0 |
| `CatalogRoutes.NegativePriceIsServerError` | routes/items.js:103 | every body that passes the route checks with a negative price ends as a server error (500), not a validation error |
| `CatalogRoutes.UpdateValidationErrors` | routes/items.js:134-144 | each optional field is reported exactly when it is present and fails its check |
| `CatalogRoutes.Merged` | routes/items.js:152-156 | the stored item with each field of the body written over it. No ensures: `UpdateOutcome` states it field by field |
| `CatalogRoutes.UpdateOutcome` | routes/items.js:152-158 | the update succeeds exactly when every numeric field casts and the merged item is `Valid`; otherwise it is a server error. The result is `Valid` and is the stored item with the body written over it: each of the eight fields takes its new value when given and keeps its stored one when absent |
| `CatalogRoutes.RestockKeepsItem` | routes/items.js:152-156 | changing only the stock of a valid item to n ≥ 0 passes validation and yields the same item with stock n |
| `CatalogRoutes.ItemStore.Get` | routes/items.js:82-90 | a known id gives its (valid) item. An unknown id gives "Item not found" |
| `CatalogRoutes.ItemStore.Create` | routes/items.js:113-124 | the outcome is `CreateOutcome`. On success the item is stored under the new id; otherwise nothing changes |
| `CatalogRoutes.ItemStore.Update` | routes/items.js:139-158 | a validation error comes before "Item not found", and then the `UpdateOutcome`. Only success changes the stored item. Every stored item stays valid |
| `CatalogRoutes.ItemStore.Delete` | routes/items.js:168-178 | "Item not found" for an unknown id, with nothing changed. Otherwise the item is removed and the success message is returned |

## Left out

- HTTP and Express mechanics are not modelled. The `protect` middleware is reduced to a user id parameter. The read-join `populate` is not modelled, so lines return item ids rather than item documents.
- Item ids are compared as exact strings, in both the catalog lookup and the line match. The source compares them differently. The catalog lookup casts the id to an ObjectId and accepts uppercase hex. The line match compares it with the lowercase form `toString()` returns. The model assumes ids arrive in that lowercase form. With any other spelling of an existing id the source can push a second line for the same item on add, and it answers "Item not found in cart" on update and does nothing on remove (routes/cart.js:43, 61, 70, 103, 119, 152). The model's one-line-per-item invariant does not cover that case.
- `CartContext.CartProvider.constructor`: requires the stored local cart to hold one line per item, as every write by the provider leaves it. A hand-edited or foreign `localCart` entry is not modelled.
- Persistence failures of `save`, `create` or `findById` are not modelled. This includes the CastError for a malformed document id; ids are opaque strings and an unknown one is simply absent.
- The server cart's `totalAmount` is not modelled: it is computed in `models/Cart.js`, which is not part of this model.
- The search filter's regular-expression matching is delegated to the database. The term is carried in the filter but not interpreted.
- `GET /categories/list` is not modelled: it is the database's `distinct`.
- The listing query itself (`find`, `sort`, `skip`, `limit`, `countDocuments`) is not run. The model takes `total` as a parameter and does not model the database's handling of a negative skip or limit.
- Floating point is not modelled. Prices are integer cents and ratings are integers in [0, 5]. Query numbers arrive already parsed, so a non-numeric page or limit (NaN) is outside the model. The `toFixed` formatting in the pages is also left out.
- JavaScript coercion of a quantity sent as a string is not modelled (with a string, `+=` would concatenate). The client always sends numbers.
- Quantities beyond 2^53, where JavaScript numbers lose precision, are not modelled. Integers here are unbounded.
- Local storage and JSON parsing are modelled as an optional in-memory cart (`CartProvider.stored`).
- The `loading` flag and the React rendering and effect scheduling are not modelled. The pages' quantity dispatch and parameter stripping are UI glue and are also left out.
- Overlapping requests for the same user (lost updates) are not modelled: each handler runs atomically here.
- Item timestamps (`createdAt`) are not modelled. The sort key names the field only.
- The pass that moves a signed-out cart into the server cart at sign-in is left out: the source has no such step.
- `CatalogRoutes.BuildFilter`: the search condition is carried as the raw term, and which items it selects is not stated.
- `CatalogRoutes.UpdateOutcome`: the database's update validators check only the paths being set. The model validates the whole merged item instead, which gives the same verdict because stored items are valid (`ItemStore.Valid`).
