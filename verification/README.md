# Marketplace session state machine

A Dafny model of the single-session marketplace demo in `App.js`. The app keeps seven pieces of session state:

- the current page id
- the signed-in user, or none
- the user accounts
- the product catalog
- the cart
- the purchase ledger
- the selected product

Ten handlers overwrite that state:

- sign-in, registration and sign-out
- adding, editing and deleting a listing
- adding to the cart and removing from it
- checkout
- profile update

Which screen is rendered depends only on the signed-in user and the page id.

Layout:

- `records.dfy` (module `Records`): the records (users, products, purchases) and the partial updates that the source's object spreads apply to them. It also holds the placeholder image and the image fallback chain.
- `lists.dfy` (module `Lists`): the `find`, `filter` and `map` expressions that build the handlers' new lists, written as functions over sequences. It also holds the lemmas about them: first match, de-duplication, idempotence, order, unique emails, and the round trip from the cart to the ledger.
- `navigation.dfy` (module `Navigation`): the page ids and the screen dispatch.
- `app.dfy` (module `Marketplace`): class `App`, with the seven state fields and one method per handler. Each method is proved against the list functions above. The object invariant `Valid()` holds two facts: the cart never holds two entries with the same product id, and the signed-in user is always one of the listed users. The constructor establishes it and every handler keeps it.

Modelling choices:

- Product ids, user ids and timestamps come from `Date.now()` and `new Date()` in the source. Here they are method parameters. Nothing assumes that ids are unique.
- The seed users, seed products and categories are constructor parameters.
- A spread-merge (`{ ...p, ...data }`) becomes an explicit patch whose fields are `Option`s. An absent key is `None`. Spreads can overwrite `id` and `sellerId`, so the patches include those fields too. A user's fields other than id, email, password and username live in a `profile` map, and the patch's entries win.
- JavaScript's `||` on strings treats `""` as absent. An absent image key therefore reads as the empty string.
- A page id is a `string`, because the raw page setter accepts any value. The rendered screen is an enumeration.

In four places the code is laxer than one might expect, and the model follows the code:

- `register` does not change the page on success (App.js:38-45).
- `makePurchase` moves to the purchases page even when the cart is empty (App.js:91).
- `updateProduct` and `deleteProduct` neither check the seller nor change the page (App.js:65-73).
- Updating an unknown product id is not an error. It leaves the catalog unchanged.

## Model

| member | source | states |
|---|---|---|
| Records.NewProduct | App.js:54-60 | A new listing carries the form fields, the given id and the seller id. Its image is the supplied image when non-empty and the placeholder otherwise, so it is never empty. |
| Records.MergeProduct | App.js:67 | An edit overrides exactly the keys present in the patch. The image falls back from the supplied image, to the old image, to the placeholder, so it is never empty. |
| Records.MergeUser | App.js:96-99 | A profile update overrides exactly the keys present in the patch. Absent keys keep their values. Profile keys from the patch win over the old ones, and the old ones are kept otherwise. A profile free of the four named keys stays free of them. |
| Records.MergeUserEmptyPatch | App.js:96 | Spreading an empty patch leaves the user unchanged. |
| Lists.FindByCredentials | App.js:29 | The lookup finds no one exactly when no user has both the email and the password. Otherwise it returns the first user who has both. |
| Lists.FindListedUser | App.js:28-36 | When emails are unique, signing in with any listed user's own email and password finds exactly that user. |
| Lists.FindAfterRegister | App.js:28-45 | After registering an email that was not taken, signing in with that email and password finds the new user. |
| Lists.AppendFreshEmail | App.js:39-43 | Appending a user whose email is not yet taken keeps emails unique. |
| Lists.UpdateUsers | App.js:95-97 | Only records with the given id are merged. The length, the order and every other record are unchanged. With no matching id, the list is unchanged. |
| Lists.WithoutId | App.js:71-73 | Deletion (and removal from the cart, App.js:82) keeps exactly the entries whose id differs and never makes the list longer. An absent id changes nothing. |
| Lists.WithoutIdAppend | App.js:72 | Removal distributes over concatenation, so surviving entries keep their relative order. |
| Lists.WithoutIdIdempotent | App.js:72 | Removing the same id twice gives the same result as removing it once. |
| Lists.WithoutIdKeepsDistinct | App.js:82 | Removing entries never creates two entries with the same id. |
| Lists.UpdateProducts | App.js:65-69 | Only products with the given id are merged. The length, the order and every other product are unchanged. An unknown id leaves the catalog unchanged. |
| Lists.UpdateProductsKeepsImages | App.js:67 | If every product had a non-empty image before an edit, every product still has one after it. |
| Lists.WithItem | App.js:75-79 | The cart ends up holding the product's id. It is unchanged exactly when an entry already had that id, and otherwise the product is appended. Distinct ids stay distinct. |
| Lists.WithItemIdempotent | App.js:76 | Adding the same product a second time is a no-op. |
| Lists.Stamp | App.js:88 | Checkout makes one purchase per cart entry, in cart order. Entry k carries the k-th clock reading, because the source reads the clock once per entry. |
| Lists.ItemsOfStamp | App.js:86-89 | The new purchases record exactly the cart's products, in order, so stamping loses nothing. |
| Lists.DatesOfStamp | App.js:88 | The new purchases record exactly the given clock readings, in order: each entry keeps its own date. |
| Navigation.ScreenFor | App.js:133-158 | With no user signed in, only the register screen (for page `register`) or the login screen is shown. With a user, a recognised page shows its own screen and any other page id shows the browse screen. A member screen is shown exactly when a user is signed in. |
| Marketplace.App.Screen | App.js:133-158 | The rendered screen is a member screen exactly when a user is signed in. |
| Marketplace.App.constructor | App.js:19-25 | Starts with the login page, no user, the seed users and products, an empty cart, an empty ledger and no selected product. |
| Marketplace.App.Login | App.js:28-36 | Succeeds exactly when some user has both credentials. On success, the first such user is signed in and the page becomes `browse`. On failure the error is `Invalid credentials` and nothing changes. |
| Marketplace.App.Register | App.js:38-45 | Fails with `User already exists`, changing nothing, exactly when the email is taken. Otherwise it appends one user with the given id, email, password and username. Unique emails stay unique. The page and the signed-in user never change. |
| Marketplace.App.Logout | App.js:47-51 | Clears the user and the cart and moves to the login page. Users, products, purchases and the selected product are unchanged. |
| Marketplace.App.AddProduct | App.js:54-63 | Appends exactly one product after the existing ones. Its seller is the signed-in user, who is a listed user, and its image is never empty. The page becomes `myListings`. |
| Marketplace.App.UpdateProduct | App.js:65-69 | The catalog becomes the per-id merge of the old one. If all images were non-empty, they stay non-empty. Nothing else changes, including the page. |
| Marketplace.App.DeleteProduct | App.js:71-73 | Removes every product with the id and keeps the rest in order. Nothing else changes, including the page. |
| Marketplace.App.AddToCart | App.js:75-79 | The cart becomes the de-duplicated append, so it never holds two entries with the same id. Nothing else changes. |
| Marketplace.App.RemoveFromCart | App.js:81-83 | Removes every cart entry with the id and keeps the rest in order. Nothing else changes. |
| Marketplace.App.MakePurchase | App.js:85-92 | Extends the ledger with the stamped cart, one clock reading per entry, and never changes earlier purchases. The new entries record exactly the old cart and exactly the given readings. Empties the cart and moves to `purchases`, even when the cart was empty. |
| Marketplace.App.UpdateUser | App.js:94-100 | Merges the patch into every user record with the signed-in user's id and into the signed-in snapshot. Other records and the list length are unchanged. |
| Marketplace.App.SetCurrentPage | App.js:106 | Sets the page id to any given string and changes nothing else. |
| Marketplace.App.SetSelectedProduct | App.js:111 | Sets the selected product and changes nothing else. |

## Left out

- JSX rendering, the ten imported page components and the stylesheet (App.js:1-12) are presentation. Only the choice of screen is modelled, as the `Screen` enumeration.
- The seed module `./data/mockData` is not part of this model. The initial users, products and categories are constructor parameters.
- `Date.now()` and `new Date()` are clock reads. Ids and timestamps are parameters, and they are not assumed unique. Checkout reads the clock once per cart entry, so `MakePurchase` takes one reading per entry. Nothing is assumed about how those readings relate, such as being equal or increasing.
- React's `useState` batching and stale closures are not modelled. Each handler is one atomic update of the current state.
- Prices are JavaScript numbers (or form strings) that the core never inspects. They are modelled as integers.
- Spreading a key whose value is `undefined` is treated the same as an absent key. The source would store `undefined` for fields other than the image.
- Extra keys on a product are not modelled. The spreads of the form data, of an edit and of a cart entry (App.js:56, 67, 88) would carry over any key beyond the seven named product fields. Here `ProductData`, `ProductPatch`, `Product` and `Purchase` have fixed fields, so such keys are dropped.
- A user's `profile` map is meant to hold only keys other than `id`, `email`, `password` and `username`; `NamedKeysFree` states this. In the source, such a key in a patch would overwrite the named field. The model relies on that convention rather than enforcing it, and `MergeUser` preserves it.
- `addProduct` reads `currentUser.id` without a check, so it would throw if called with no user signed in. The model requires a signed-in user instead of modelling the exception.
- `updateUser` reads `currentUser.id` only inside its per-user merge. With no user signed in, it throws only when the user list is non-empty. With an empty list it would not throw: spreading `null` makes the patch itself the signed-in user. The model requires a signed-in user and so leaves out both outcomes. Only the signed-in pages receive these two handlers (App.js:139-158).
- Unique emails are not an object invariant. The seed data is not known to satisfy it, and a profile update may change an email. The model states only that registration preserves it.
