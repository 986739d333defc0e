# Storefront cart and catalog store, in Dafny

This project models the server side of a small storefront. It has three parts.

- **The in-memory store.** `MemStorage` in server/storage.ts holds a product catalog and a shopping cart in two JavaScript `Map`s, with two id counters that are post-incremented.
- **The Zod schemas** in shared/schema.ts. They decide which product and cart-line bodies the server accepts.
- **The Express handlers** in server/routes.ts. They parse a body, call the store, and turn the outcome into an HTTP status. They also attach each cart line's product when the cart is read.

## Modules

- `Wrappers`: `Option` and `Result`.
- `OrderedKeys`: the iteration order of a `Map`.
  - Each `Map` is a Dafny `map` together with a `seq<int>` of its keys in insertion order.
  - `set` on a new key appends the key, `set` on a present key keeps its place, and `delete` drops it.
  - Ids come from increasing counters, so insertion order is ascending id order. `EnumerationUnique` shows that ascending order fixes the sequence, which lets a loop's result be compared with the function that describes it.
- `Schema`: the record shapes and the validation predicates.
  - `min`/`max` on a string count UTF-16 code units, as JavaScript's `length` does.
  - `\s` is the exact whitespace class of a JavaScript regular expression.
  - Prices are compared in whole cents, which is exact for every string the price pattern admits.
- `StoreSpec`: the store as a state machine on a `Store` value.
  - Every storage operation is a function from the old store and its arguments to the new store and its result.
  - `Inv` is the invariant every reachable store keeps:
    - ids are fresh, lie below their counter and key their own record;
    - `Map` order is ascending;
    - every cart line names a stored product;
    - no product has two lines.
- `Storage`: the class `MemStorage`. Its fields are the maps, their key orders and the counters, and its methods update them in place.
  - Each method is proved to move the object from `old(State())` to what the matching `StoreSpec` function computes, and to keep `Valid()`.
  - The constructor's `forEach`, the `find` in `addToCart`, the cascade's `forEach` and `Array.from(map.values())` are loops with invariants.
- `RouteSpec`: each handler as a function from the store and the request to the new store and the `Response` (status and JSON payload). It also holds the GET /api/cart join and the lemmas about responses.
- `Routes`: the handlers as methods that act on a shared `MemStorage`. Each is proved to follow its `RouteSpec` function.

A route id is what `parseInt` made of the path segment. `None` stands for `NaN`:
- `NaN` equals no key, so `deleteProduct(NaN)` and `removeFromCart(NaN)` change nothing, and the handler methods skip those calls;
- `updateCartItemQuantity(NaN, q)` throws "Cart item not found", so PATCH with a `NaN` id answers 500.

What the handlers and the store do, and what they leave out:
- Products have exactly id, name, price and image. There is no stock field, and no cart operation reserves or releases stock.
- GET /api/products takes no query parameters. It returns every product, in ascending id order.
- A missing product on POST /api/cart answers 500, because `addToCart` throws a plain `Error` and the handler's `catch` answers 500.
- The 1–100 bound is checked on each POST body, not on the line: `CapIsPerRequest` shows a line reaching 200. PATCH checks only "a number ≥ 1" (`PatchWeakerThanPost`).

## Model

| member | source | states |
|---|---|---|
| Schema.NameAccepted | shared/schema.ts:26-29 | a name is accepted iff it has 3 to 100 characters and each is an ASCII letter, a digit, JavaScript whitespace, '-' or '_' |
| Schema.BmpLength | shared/schema.ts:27-28 | for characters of the Basic Multilingual Plane the UTF-16 length that `min`/`max` measure is the character count |
| Schema.PriceAccepted | shared/schema.ts:30-38 | a price is accepted iff it matches `^\d+(\.\d{1,2})?$` and its value is 0.01 to 999999.99; an accepted price leaves the transform unchanged; an out-of-range price is rewritten to "0", which the refine rejects |
| Schema.PriceStringAccepted | shared/schema.ts:31-38 | every amount from 1 cent to 99999999 cents has a price string that the pattern admits, whose value is that amount, and that the schema accepts unchanged |
| Schema.NatDigitsValue | shared/schema.ts:33-36 | the decimal digits written for a number are read back as that number, as `parseFloat` reads the whole part of a price |
| Schema.ImageAccepted | shared/schema.ts:39-43 | an image is accepted iff it passes the URL check, starts with "https://" and has at most 500 code units; the minimum of 5 never decides, because the prefix already has 8 |
| Schema.CartQuantityAccepted | shared/schema.ts:53-56 | a cart quantity is accepted iff it equals one of the whole numbers 1, 2, …, 100 |
| Schema.ParseProduct | shared/schema.ts:19-44 | a product body parses iff name, price and image are all present and valid; the parsed record holds the three strings unchanged |
| Schema.ParseCartItem | shared/schema.ts:47-57 | a cart body parses iff productId is present and quantity is one of the whole numbers 1 to 100; the parsed record holds both unchanged |
| OrderedKeys.Filter | server/storage.ts:74-76 | keeping the keys that pass a test gives exactly the listed keys that pass it, keeps ascending order, and keeps the whole list when every key passes |
| OrderedKeys.DeleteOrder | server/storage.ts:114 | after `Map.delete(k)` the order lists exactly the other keys and stays ascending |
| OrderedKeys.AppendAbove | server/storage.ts:65-67 | setting a key above every present key appends it and keeps the order ascending |
| StoreSpec.SeededState | server/storage.ts:57 | creating products in turn on the empty store gives the i-th the id i + 1, lists the ids in creation order, leaves the cart empty and the product counter one above the last id |
| StoreSpec.SeededInv | server/storage.ts:57 | creating products in turn on the empty store keeps the invariant |
| StoreSpec.InitialState | server/storage.ts:27-57 | the constructed store holds exactly the four sample products, in order, under ids 1 to 4, an empty cart, next product id 5 and next cart id 1, and satisfies the invariant |
| StoreSpec.CreateProductFresh | server/storage.ts:64-69 | `createProduct` stores the product under the counter's value, which is above every existing id; it appends the id to the order, advances the counter, changes no other product and no line, and keeps the invariant |
| StoreSpec.AddToCartUnknownProduct | server/storage.ts:85-89 | `addToCart` for a product that is not stored fails with "Product not found" and changes nothing |
| StoreSpec.FindLine | server/storage.ts:92-94 | the line the search finds holds the product, and no line before it in iteration order does; the search reports none only when no line holds the product |
| StoreSpec.FindLineUnique | server/storage.ts:92-94 | under the invariant the search finds the product's only line |
| StoreSpec.ScanFindsLine | server/storage.ts:92-94 | an in-order scan that stops at the first matching line finds what `FindLine` finds |
| StoreSpec.AddToCartMerges | server/storage.ts:96-101 | a second add for a product with a line sets that line to old quantity + (quantity \|\| 1); it creates no line, keeps the cart order and counter, and leaves the catalog alone |
| StoreSpec.AddToCartAppends | server/storage.ts:103-110 | an add for a stored product without a line opens a line under the cart counter with quantity (quantity \|\| 1); the line goes at the end of the cart order and the counter advances |
| StoreSpec.MergeKeepsInv | server/storage.ts:96-101 | raising an existing line's quantity keeps the invariant: no key, id or product changes |
| StoreSpec.AppendKeepsInv | server/storage.ts:103-110 | opening a line for a stored product without one keeps the invariant |
| StoreSpec.AddToCartKeepsInv | server/storage.ts:85-111 | `addToCart` keeps the invariant, in particular one line per product and every line naming a stored product |
| StoreSpec.UpdateQuantityEffect | server/storage.ts:117-126 | an update of an unknown line fails with "Cart item not found" and changes nothing; otherwise it replaces only that line's quantity, keeping its id and product, with no bound check, and keeps the invariant |
| StoreSpec.RemoveFromCartEffect | server/storage.ts:113-115 | `removeFromCart` drops exactly that line, is a no-op for an unknown id, touches nothing else and keeps the invariant |
| StoreSpec.DeleteProductCascade | server/storage.ts:71-79 | `deleteProduct` removes exactly that product and exactly the lines that hold it; every other product and line is unchanged, the counters are unchanged, and the invariant holds |
| StoreSpec.DeleteProductMatches | server/storage.ts:74-78 | deleting one by one the lines an in-order scan collected for the product gives the store `DeleteProduct` describes |
| StoreSpec.CreateThenDelete | server/storage.ts:64-79 | deleting a product just created gives back the catalog and the cart as they were; only the product counter has advanced, so the id is never reused |
| StoreSpec.AddThenRemove | server/storage.ts:103-115 | removing a line just opened gives back the cart as it was; only the cart counter has advanced |
| StoreSpec.CartOperationsKeepCatalog | server/storage.ts:85-126 | no cart operation changes the products, their order or the product counter |
| StoreSpec.ProductListComplete | server/storage.ts:60-62 | `getProducts` lists every stored product, only stored products, in ascending id order |
| Storage.MemStorage.constructor | server/storage.ts:27-57 | the new object is the initial store: empty maps, counters at 1, then `createProduct` on each sample in turn |
| Storage.MemStorage.GetProducts | server/storage.ts:60-62 | returns the product map's values in its iteration order |
| Storage.MemStorage.CreateProduct | server/storage.ts:64-69 | moves the object to the store `StoreSpec.CreateProduct` computes and returns the created product |
| Storage.MemStorage.DeleteProduct | server/storage.ts:71-79 | deletes the product, collects its lines in cart order and deletes them, ending in the store `StoreSpec.DeleteProduct` computes |
| Storage.MemStorage.DeleteCartLines | server/storage.ts:78 | deleting each listed id from the cart removes exactly those keys, keeps every other line and the cart order, and touches no other field |
| Storage.MemStorage.GetCartItems | server/storage.ts:81-83 | returns the cart map's values in its iteration order |
| Storage.MemStorage.AddToCart | server/storage.ts:85-111 | throws for an unknown product, otherwise scans the cart for the product's line, and ends in the store and result `StoreSpec.AddToCart` computes |
| Storage.MemStorage.FindLineOf | server/storage.ts:92-94 | the scan in cart order returns the stored line, with the product, when it finds one, and returns none only when no line in cart order holds the product |
| Storage.MemStorage.RaiseLine | server/storage.ts:96-101 | for a product whose line `FindLine` finds, raises that line's quantity and ends in the store and result `StoreSpec.AddToCart` computes |
| Storage.MemStorage.AppendLine | server/storage.ts:103-110 | for a stored product with no line, opens a line under the cart counter and ends in the store and result `StoreSpec.AddToCart` computes |
| Storage.MemStorage.RemoveFromCart | server/storage.ts:113-115 | ends in the store `StoreSpec.RemoveFromCart` computes |
| Storage.MemStorage.UpdateCartItemQuantity | server/storage.ts:117-126 | ends in the store and result `StoreSpec.UpdateCartItemQuantity` computes |
| RouteSpec.FindProduct | server/routes.ts:45 | `find` returns the first product with the id, or nothing when no product has it |
| RouteSpec.Enrich | server/routes.ts:44-50 | the join has one entry per cart line, in order, each carrying the line's id, productId and quantity |
| RouteSpec.FindProductInCatalog | server/routes.ts:41-45 | under the store invariant, looking an id up in the `getProducts` list finds exactly the stored product with that id |
| RouteSpec.GetProductsListsCatalog | server/routes.ts:9-12 | GET /api/products answers 200 with every stored product once, in ascending id order, with no filtering or paging |
| RouteSpec.GetCartJoin | server/routes.ts:39-53 | GET /api/cart answers 200 with one entry per line in cart order, each holding the line's fields and the stored product it names; the invariant ensures `product` is never undefined |
| RouteSpec.PostProductsOutcome | server/routes.ts:14-25 | POST /api/products answers 400 and changes nothing iff the body is rejected, otherwise 200 with the product created under the next id; it never answers 500 |
| RouteSpec.PostCartOutcome | server/routes.ts:55-67 | POST /api/cart answers 400 iff the body is rejected and 500 iff the product is not stored, changing nothing in both cases; otherwise 200 with the stored line |
| RouteSpec.CapIsPerRequest | server/routes.ts:57-58 | the 1 to 100 bound applies to each request: two accepted adds of 100 leave a line of 200 |
| RouteSpec.ParsePatch | server/routes.ts:82 | the PATCH body is accepted iff `quantity` is a number of at least 1, so every quantity POST accepts passes and so does any number above 100; the accepted quantity comes through unchanged |
| RouteSpec.PatchWeakerThanPost | server/routes.ts:82 | every quantity POST accepts is accepted by PATCH, and PATCH also accepts 2.5 and 1000, which POST refuses |
| RouteSpec.PatchCartOutcome | server/routes.ts:79-92 | PATCH answers 400 iff the body is rejected, and 500 iff it is accepted but no line has the id (or the id is NaN), changing nothing in both cases; otherwise 200 with the line holding exactly the requested quantity |
| RouteSpec.DeleteUnknownProduct | server/storage.ts:71-79 | under the invariant, deleting a product that is not stored changes nothing |
| RouteSpec.DeleteProductAnswersNoContent | server/routes.ts:28-36 | DELETE /api/products/:id always answers 204 and keeps the invariant; an unknown or NaN id changes nothing |
| RouteSpec.DeleteCartAnswersNoContent | server/routes.ts:69-77 | DELETE /api/cart/:id always answers 204 and keeps the invariant; an unknown or NaN id changes nothing |
| RouteSpec.AddToCartKeepsQuantities | server/storage.ts:96-110 | `addToCart` with a quantity of at least 1 leaves every line at 1 or more |
| RouteSpec.RoutesKeepQuantities | server/routes.ts:14-92 | no handler can leave a cart line below one unit |
| RouteSpec.InitialQuantities | server/storage.ts:27-57 | the constructed store satisfies the store invariant and the quantity invariant |
| Routes.GetProducts | server/routes.ts:9-12 | answers what `RouteSpec.GetProducts` describes for the current store |
| Routes.PostProducts | server/routes.ts:14-25 | parses, creates, and ends in the store and response `RouteSpec.PostProducts` describes |
| Routes.DeleteProduct | server/routes.ts:28-36 | ends in the store and response `RouteSpec.DeleteProductRoute` describes |
| Routes.GetCart | server/routes.ts:39-53 | reads the lines, then the products, joins them, and answers what `RouteSpec.GetCart` describes |
| Routes.PostCart | server/routes.ts:55-67 | ends in the store and response `RouteSpec.PostCart` describes |
| Routes.DeleteCart | server/routes.ts:69-77 | ends in the store and response `RouteSpec.DeleteCartRoute` describes |
| Routes.PatchCart | server/routes.ts:79-92 | ends in the store and response `RouteSpec.PatchCart` describes |

## Left out

- Zod's `.url()` check (shared/schema.ts:40) is a library call. It is the parameter `isUrl` and is not modelled further.
- Zod's error lists (`error.errors`) are not modelled. A 400 response carries the single payload `ValidationErrors`, without the issues or their messages.
- `parseInt` of route ids (server/routes.ts:30, 71, 81) is not modelled. A route id is already an integer or `NaN`.
- JSON numbers are exact `real`s. Rounding of IEEE doubles and the 2^53 limit on integers are not modelled, so quantities and ids never lose precision.
- Schema.ParseCartItem: `productId` is a present integer or absent. A fractional or non-numeric productId is treated as absent (a ZodError), because drizzle-zod's check on integer columns differs between its versions.
- A body that is not a JSON object is not modelled. Each field is either present with the right type or absent.
- Schema.Utf16Length counts a character above U+FFFF as two code units. Lone surrogates cannot appear in a Dafny `string` and are not modelled.
- `async`/`await` is not modelled: the handlers run to completion one at a time, which is what the single-threaded server does between awaits. The interleaving of two requests at an `await` is not modelled.
- Express routing, `createServer`, the JSON serialisation of responses and the drizzle `pgTable` declarations beyond their field lists are not modelled.
- server/app.py is not part of this model. Its listing code is unreachable and its Django views are framework code.
- The React client under client/src is not part of this model. It is UI code.
