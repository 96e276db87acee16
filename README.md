# A verified model of the hornayshop client-side store

`app.js` is the whole back end of a small digital-goods shop, running in the
browser. It keeps users, products, the session, the cart and the order
history in local storage. Every operation reads a whole collection, changes
it and writes it back. This project models those operations in Dafny:

- `Shop.Store` is a class whose fields are the stored collections (`users`,
  `products`, `cart`, `orders`) and the optional `session`. Each exported
  operation is a method that modifies only the field it writes.
- The list rules behind those methods are pure functions with proved
  contracts:
  - `Cart`: merge-or-append, set-quantity-then-drop-non-positive.
  - `Catalog`: prepend, shallow merge, filter out, seed-if-empty.
  - `Identity`: reject a duplicate email, find by credentials, resolve the
    session.
  - `Lists`: the `find`/`findIndex`/`filter` scans they all use.
- `Hex` models how `hashPass` writes the digest bytes as lower-case hex.

Anything the source gets from the browser is a parameter of the method:

- generated ids (`randId`) and timestamps (`Date.now()`);
- the SHA-256 password hash, already hex-encoded;
- the random placeholder image URL.

Where the code and its informal description differ, the model follows the code:

- `addToCart` does not check the quantity, so it can create or leave a line
  whose quantity is zero or negative (`Cart.AddNonPositive`). Only
  `updateCart` guarantees that every line is positive.
- `updateCart` sets the quantity on every line for the product, not only on
  the first one. The store's `Valid()` invariant keeps at most one such line
  anyway.

## Model

| member | source | states |
|---|---|---|
| `Lists.FirstIndex` | app.js:85 | `findIndex`: the result is the first index whose element passes the test. Every earlier element fails it. None exactly when no element passes. |
| `Lists.Filter` | app.js:92 | `filter`: an element is in the result exactly when it is in the input and passes the test. It occurs in the result as often as in the input when it passes, and not at all otherwise. The result is a subsequence of the input, so order is kept. |
| `Lists.FilterIdempotent` | app.js:92 | Filtering twice with the same test equals filtering once. |
| `Lists.FilterDistinct` | app.js:106 | Filtering never makes two elements share a key. |
| `Hex.ToBase16` | app.js:26 | `n.toString(16)`: at least one digit, all lower-case hex, no leading zero unless `n` is 0. It is one digit exactly when `n < 16`, and two for a byte of 16 or more. |
| `Hex.ToBase16Value` | app.js:26 | Reading the digits of `n.toString(16)` back as a base-16 number gives `n`. |
| `Hex.PadStart` | app.js:26 | `padStart`: the result is as long as the width, or as the string if that is longer. It ends with the string and is filled on the left. |
| `Hex.ByteHex` | app.js:26 | `b.toString(16).padStart(2,'0')` is exactly two lower-case digits: high nibble, then low nibble. |
| `Hex.HashHex` | app.js:25-26 | The joined hex string is twice as long as the digest. Every character is a lower-case hex digit. |
| `Hex.UnhexHashHex` | app.js:25-26 | Decoding the hex string gives the digest bytes back. |
| `Hex.HashHexInjective` | app.js:25-26 | Two digests with the same hex string are equal, so comparing stored hashes compares digests. |
| `Identity.Register` | app.js:31-36 | Fails with "Email already registered" exactly when some stored user has the email. Otherwise the user is appended at the end. |
| `Identity.Authenticate` | app.js:43-45 | Finds a user exactly when one has both the email and the hash. The one found is the first such user and has both. |
| `Identity.Resolve` | app.js:55-60 | None exactly when there is no session or no user has the session's user id. Otherwise it is the first stored user with that id. |
| `Identity.RegisterUnique` | app.js:30-36 | A successful signup keeps emails unique. |
| `Identity.RegisterAgain` | app.js:30-36 | After a successful signup, any signup with the same email fails, whatever the name and password. |
| `Identity.LoginAfterRegister` | app.js:30-48 | Right after signup, login with that email and hash finds exactly the new user. |
| `Identity.SessionOfLogin` | app.js:41-60 | With unique ids, the session a login writes resolves back to the user who logged in. |
| `Catalog.Merge` | app.js:86 | Shallow merge: each field present in `data` is taken from it, and every other field keeps the old value. |
| `Catalog.MergeNoChange` | app.js:86 | Merging an empty patch leaves the product unchanged. |
| `Catalog.MergeTwice` | app.js:86 | Two successive merges equal one merge of the combined patch, where later fields win. |
| `Catalog.ProductIndex` | app.js:85 | The first index with the id. None exactly when no product has it. |
| `Catalog.Update` | app.js:83-88 | Fails with "Not found" exactly when no product has the id. Otherwise the length is unchanged, the first product with the id becomes the merge, and every other index is unchanged. |
| `Catalog.Remove` | app.js:90-93 | No remaining product has the id. A product remains exactly when it was there and has another id, as many times as it was there. The survivors keep their order. |
| `Catalog.RemoveAbsent` | app.js:90-93 | Removing an id no product has leaves the catalog unchanged. |
| `Catalog.RemoveTwice` | app.js:90-93 | Removing twice equals removing once. |
| `Catalog.Samples` | app.js:66-70 | Exactly three demo products, with the given ids in order. All are sold by "system", created at the given time, and have a non-negative price. |
| `Catalog.SeedIfEmpty` | app.js:63-73 | An empty catalog becomes exactly the three samples. A non-empty catalog is unchanged. |
| `Catalog.SeedTwice` | app.js:63-73 | Seeding a second time, with any ids and time, changes nothing. |
| `Cart.LineIndex` | app.js:100 | The first line for the product. None exactly when the cart holds no line for it. |
| `Cart.Add` | app.js:98-102 | With a line for the product, the length is unchanged, the first such line's quantity grows by `qty`, and every other line is unchanged. Without one, `{productId, qty}` is appended at the end. |
| `Cart.AddQty` | app.js:98-102 | The product's total quantity grows by `qty`. Every other product's total is unchanged. |
| `Cart.AddTwice` | app.js:98-102 | Adding `q1` and then `q2` of a product equals adding `q1 + q2` once. |
| `Cart.AddUnique` | app.js:98-102 | Adding keeps at most one line per product. |
| `Cart.AddPositive` | app.js:98-102 | Adding a positive quantity to a cart whose lines are all positive keeps them all positive. |
| `Cart.AddNonPositive` | app.js:98-102 | Adding a non-positive quantity for a new product leaves a non-positive line. |
| `Cart.Relabel` | app.js:106 | The `map` step: same length, and each line keeps its product. Lines for the product take the new quantity, and every other line is unchanged. |
| `Cart.RelabelMembers` | app.js:106 | A line is in the mapped cart exactly when it was a line for another product, or it is `{productId, qty}` and the product was held. |
| `Cart.SetQty` | app.js:104-107 | Every line left is positive. A line survives exactly when it was a positive line for another product, or it is `{productId, qty}` with `qty > 0` and the product was in the cart. Each positive line of the mapped cart occurs as many times as there, and the survivors keep their order. With `qty <= 0` the product has no line. |
| `Cart.SetQtyUnique` | app.js:104-107 | Setting a quantity keeps at most one line per product. |
| `Cart.SetQtyAbsent` | app.js:104-107 | On a cart of positive lines, setting the quantity of a product not in it changes nothing. |
| `Cart.QtyOfUnique` | app.js:100-106 | With one line per product, a product's total is the quantity on its line, or 0 if it has none. |
| `Cart.SetQtyQty` | app.js:104-107 | With one line per product, the product's total afterwards is `qty` if `qty` is positive and the product was held, and 0 otherwise. |
| `Shop.Store.Signup` | app.js:30-40 | Fails exactly when the email is registered, and then the users are unchanged. Otherwise the new user is appended. Unique emails are preserved and only `users` is written. |
| `Shop.Store.Login` | app.js:41-48 | Succeeds exactly when some user has the email and hash. The user returned is the first such user, and the session names it with the given time. On failure the session is unchanged. |
| `Shop.Store.Logout` | app.js:49-52 | The session is gone and the current user resolves to none. Only the session is written. |
| `Shop.Store.CurrentUser` | app.js:55-60 | None exactly without a session or without a user with its id. Otherwise the first stored user with that id. |
| `Shop.Store.SeedProductsIfEmpty` | app.js:63-73 | Writes the three samples into an empty catalog. Otherwise nothing changes. |
| `Shop.Store.GetProducts` | app.js:74 | Returns the stored catalog. |
| `Shop.Store.AddProduct` | app.js:75-82 | The new product has the given fields, and a missing or empty image becomes the placeholder. It is at index 0, followed by the old catalog. |
| `Shop.Store.UpdateProduct` | app.js:83-89 | Fails with "Not found" exactly when no product has the id, and then the catalog is unchanged. Otherwise only the first product with the id is replaced by the merge, which is returned. |
| `Shop.Store.RemoveProduct` | app.js:90-94 | The catalog becomes `Catalog.Remove` of the old one, and no product has the id. |
| `Shop.Store.GetCart` | app.js:97 | Returns the stored cart. |
| `Shop.Store.AddToCart` | app.js:98-103 | `qty` defaults to 1. The cart becomes `Cart.Add` of the old cart and holds a line for the product. The product's total grows by `qty`, and one line per product is preserved. In a valid store, that one line holds the old total plus `qty`. |
| `Shop.Store.UpdateCart` | app.js:104-108 | The cart becomes `Cart.SetQty` of the old cart. Every line is positive, a non-positive `qty` removes the product, and one line per product is preserved. In a valid store, the product's total becomes `qty` if it is positive and the product was held, and 0 otherwise. |
| `Shop.Store.ClearCart` | app.js:109 | The cart is empty. |
| `Shop.Store.PlaceOrder` | app.js:112-122 | The order carries the caller's buyer, items and total. It is at index 0, followed by the old history, and afterwards the cart is empty. |

## Left out

- Local storage and JSON are replaced by the class fields (`readLS`, `writeLS`, `app.js:13-14`). A missing key reads as the empty collection, so deleting the cart or session key means setting it to `[]` or `None`. The fields always hold well-formed lists, so the model does not cover:
  - malformed stored JSON, which reads as null and then as `[]`;
  - a stored falsy value (`false`, `0`, `""`), which `|| []` also replaces by `[]`;
  - a stored truthy non-array such as `{}`, which is kept, so the following `find`, `filter` or `.length` misbehaves or throws;
  - writes from other browser tabs overwriting each other.
- Shop.Store.Signup: the model treats signup as one atomic step. In the source, `signup` reads the users and checks the email (`app.js:31-32`), then awaits the hash (`app.js:33`), and only afterwards pushes and writes (`app.js:35-36`). Two overlapping signups in one page can both pass the check, and the second write then drops the first user. The method takes the finished hash as a parameter, so this interleaving is not modelled.
- The SHA-256 digest and `TextEncoder` (`app.js:21-25`) are an asynchronous browser crypto call.
  - `Signup` and `Login` take the finished hex hash as a parameter.
  - Only the hex joining of the digest bytes is modelled (`Hex`).
- `randId`, `Date.now()` and the random placeholder URL (`app.js:15`, `app.js:77`) are nondeterministic, so they are parameters.
- Catalog.Samples: the source reads the clock once per sample product; the model gives all three one timestamp.
- Shop.Store.AddProduct: `Number(price)` coercion of strings is not modelled. The price arrives as an exact `real`, and floating-point rounding is not modelled either.
- `money` (`app.js:16`) is floating-point display formatting and is not modelled.
- The update patch of `updateProduct` can carry only `Product` fields. Extra keys in `data`, and keys present with the value `undefined`, are not modelled.
- Fields and values of other JavaScript types are not modelled. Quantities are integers and `===` is taken as equality of strings. JavaScript's `+=` on non-numbers and `qty` values that are not numbers are not covered.
- The call to `seedProductsIfEmpty` when the script loads (`app.js:125`) and the `window.DL` export (`app.js:128-133`) are wiring. `Shop.Store.constructor` gives an empty store, and seeding is the separate method.
