# farm2market browser layer, modelled in Dafny

farm2market is a small marketplace web application. Farmers list products and
buyers browse them and pay for them. This project models the logic in its
browser script, `static/script.js`:

- **The cart.** `addToCart` reads the cart from the browser-storage slot
  `"cart"`. An unset slot reads as the empty list. The function looks for the
  first entry with the product's `product_id`. If one exists, its `quantity`
  goes up by one. Otherwise a copy of the product with `quantity` 1 is
  appended. The whole list is then written back.
- **The marketplace search.** On every input event in the search box, the
  fetched product list is filtered again. A product stays when its
  lower-cased `product_name` contains the lower-cased text of the box.
- **The farmer dashboard.** It shows "No products yet" for an empty list.
  Otherwise it shows one row per product, with Edit and Delete controls.
- **The form handlers' decisions.** These cover where a successful login
  goes, the payment form's guard against a missing payment method, and the
  delete confirmation.

Files:

- `wrappers.dfy` holds `Option`.
- `text.dfy` holds ASCII lower-casing and substring inclusion.
- `products.dfy` holds the product record.
- `cart.dfy` holds the cart. `AddedToCart` is a recursive reference
  definition. `Find` is the front-to-back search. `CartStore` is the storage
  slot as a class, and its `AddToCart` method does find-then-bump-or-append.
  The method is proved equal to `AddedToCart`.
- `marketplace.dfy` holds the search filter and the rendered list
  (`MarketView`), plus the farmer dashboard view.
- `handlers.dfy` holds each handler as the list of effects it produces
  (requests, toasts, navigations). The network round trip is a parameter.

Cart entries and products share one record type, `Products.Product`. A cart
entry is a shallow copy of a product whose `quantity` counts the units wanted
rather than the units in stock. `price` is a REAL column in the database.
The model copies it and never computes with it, so it is a Dafny `real`.

## Model

| member | source | states |
|---|---|---|
| `Cart.NewEntry` | static/script.js:161 | a new entry has quantity 1 and every other field copied from the product |
| `Cart.Bumped` | static/script.js:159 | a repeat add raises the entry's quantity by exactly 1 and changes no other field |
| `Cart.AddedToCart` | static/script.js:157-162 | reference definition of one add. The length is unchanged when an entry with the id exists and grows by 1 otherwise. Every old entry keeps its position and its id. Only `quantity` of an entry with the product's id may change. All other entries are untouched. When the id is absent, the new last entry is the product with quantity 1 |
| `Cart.Find` | static/script.js:157 | returns `None` exactly when no entry has the id; otherwise the index of the first entry with that id |
| `Cart.AddedAtFirstMatch` | static/script.js:157-159 | when an entry with the id exists, the cart after the add is the old cart with exactly the first such entry's quantity raised by 1 |
| `Cart.AddedWhenAbsent` | static/script.js:157-161 | when no entry has the id, the cart after the add is the old cart followed by one entry: the product with quantity 1 |
| `Cart.AddedKeepsUniqueIds` | static/script.js:157-162 | if the cart has at most one entry per `product_id` before the add, it still does afterwards |
| `Cart.AddedUnits` | static/script.js:157-162 | for every id, the units the cart asks for (the sum of quantities of entries with that id) go up by 1 for the added product and stay the same for every other product |
| `Cart.AddTwiceWhenAbsent` | static/script.js:155-164 | adding a product that is not in the cart twice gives the old cart plus one entry for it with quantity 2. With the empty cart (the `'[]'` default), that is exactly one entry |
| `Cart.AddTwoDistinctWhenAbsent` | static/script.js:157-162 | adding two products with different ids, neither in the cart, appends exactly two entries, one per product, each with quantity 1 |
| `Cart.CartStore.constructor` | static/script.js:155 | before the first add the slot is unset and reads as the empty cart |
| `Cart.CartStore.AddToCart` | static/script.js:155-164 | the slot afterwards holds `AddedToCart` of the cart read from it (unset reads as empty). One entry per id is preserved. The product's unit count rises by 1 |
| `Text.LowerChar` | static/script.js:189-190 | A-Z map to a-z and every other character is kept; the result is never an upper-case ASCII letter |
| `Text.Lower` | static/script.js:189-190 | `toLowerCase` keeps the length and lower-cases each character in place |
| `Text.LowerIdempotent` | static/script.js:189-190 | lower-casing an already lower-cased text changes nothing; used to show the search ignores the case of the typed text |
| `Text.IncludesEmpty` | static/script.js:190 | every name includes the empty query |
| `Text.IncludesTransitive` | static/script.js:190 | if `s` includes `b` and `b` includes `a`, then `s` includes `a` |
| `Marketplace.Filter` | static/script.js:190 | the result holds only products whose lower-cased name contains the query. It holds every such product as often as the input does. It keeps the input's order, and it is never longer than the input |
| `Marketplace.SubsequenceCounts` | static/script.js:190 | an order-keeping selection never holds a product more often than the list it is taken from |
| `Marketplace.FilterUnique` | static/script.js:190 | the three properties of `Filter` pin it down: any order-keeping selection that holds only matching products, and all of them, equals `Filter` |
| `Marketplace.SearchResults` | static/script.js:189-190 | a product is shown exactly when it is in the fetched list and its lower-cased name contains the lower-cased text typed; never more products than were fetched |
| `Marketplace.EmptySearchShowsAll` | static/script.js:186-191 | an empty search box shows the whole fetched list |
| `Marketplace.NarrowingFilter` | static/script.js:188-191 | re-filtering an earlier result with a query that contains the earlier one gives the same list as filtering the full list |
| `Marketplace.ShorteningNeedsFullList` | static/script.js:188-191 | the other direction fails: after the query "ab", re-filtering that result with "a" loses the product named "a" that filtering the full list shows. So filtering from the full fetched list, as the handler does, matters |
| `Marketplace.SearchIgnoresCase` | static/script.js:189-190 | typing the query lower-cased shows the same products as typing it in any case |
| `Marketplace.MarketView.constructor` | static/script.js:172-186 | the first render shows every fetched product |
| `Marketplace.MarketView.OnSearchInput` | static/script.js:187-192 | each input event re-renders `SearchResults` of the fetched list, never of the previous result; an empty box shows the whole list |
| `Marketplace.Rows` | static/script.js:206-213 | one row per product, in order, each showing the product and carrying its id on both the Edit and the Delete control |
| `Marketplace.FarmerListView` | static/script.js:203-214 | the "No products yet" placeholder exactly when the list is empty; otherwise one row per product, whose Edit and Delete controls both carry that product's id |
| `Marketplace.RowControlsAt` | static/script.js:211-212 | row `i`'s Edit and Delete controls are the page's controls `2i` and `2i+1`, carrying the row's ids |
| `Marketplace.FarmerControls` | static/script.js:203-213 | the page's controls are, product by product in order, an Edit then a Delete control for that product's id; there are none for an empty list |
| `Handlers.ErrorText` | static/script.js:21 | a failed reply shows the server's `error` text, or the handler's fallback message when the field is absent or empty |
| `Handlers.LoginTarget` | static/script.js:19 | the redirect is `/farmer` exactly when `user_type` is the string `"farmer"`, and `/buyer` for every other value, including an absent one |
| `Handlers.LoginReaction` | static/script.js:15-25 | handling the reply to a login sends no further request |
| `Handlers.LoginEffects` | static/script.js:9-25 | a login sends exactly one request, a POST of the e-mail and password to `/api/login`. It navigates to `/farmer` exactly when the reply is ok with `user_type` `"farmer"`, and to `/buyer` exactly when the reply is ok with any other `user_type` |
| `Handlers.PaymentReaction` | static/script.js:124-135 | handling the reply to a payment sends no further request |
| `Handlers.PaymentEffects` | static/script.js:111-135 | with no payment method checked, the only effect is the error toast "Select a payment method." and no request is sent. With one checked, exactly one request is sent, a POST of that method for product 1 and buyer 1. The receipt is shown exactly when a method was checked and the reply is ok |
| `Handlers.DeleteEffects` | static/script.js:218-227 | no request without confirmation. With confirmation, exactly one delete request for that product id. The page reloads exactly when the reply was read |

## Left out

- Rendering: HTML markup, `getElementById`, and the toast element with its 3-second removal timer. The model records which toast, navigation or list content results, not the markup.
- Network and browser I/O: `fetch`, `res.json()`, `window.location`, `alert`, `confirm` and `location.reload`. Each becomes a parameter: the reply or its failure, and the confirmation answer. Or it becomes an effect in a list.
- `localStorage` and `JSON.parse`/`JSON.stringify`: the slot holds the already-decoded list. A corrupt stored value, which makes `JSON.parse` throw, is not modelled. The `alert` after an add is not modelled either.
- `Text.Lower`, `Text.LowerChar`: model `toLowerCase` on ASCII letters only. JavaScript lower-cases all of Unicode, and some characters change length when lower-cased.
- `Cart.Bumped`: JavaScript numbers are doubles, so `quantity += 1` stops changing the value above 2^53. The model uses unbounded integers.
- `Cart.Find`: compares ids as integers. JavaScript's `===` would treat a string id and a numeric id as different.
- `Handlers.ErrorText`: only models a string or absent `error` field. Other falsy or truthy JSON values are not modelled.
- The registration and add-product form handlers (static/script.js:29-103) are not part of this model. They follow the login handler's shape with a fixed redirect. The add-product handler sends the placeholder image name `placeholder.jpg`.
- The image preview (static/script.js:60-75) is browser file-reading plumbing.
- The receipt date (static/script.js:128) depends on the clock and locale.
- `loadFarmerProducts` fetches `/api/products/farmer/<id>` with a default id of 1. The URL and the edit link's text (`/edit_product?id=<id>`) are represented by the id they carry.
- Edits from several browser tabs to the same slot (last write wins) are not modelled.
- `app.py` (the Flask routes and the SQLite schema) is not part of this model.
