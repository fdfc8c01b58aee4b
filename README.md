# Cart, checkout and request checks of an e-commerce server, in Dafny

This project models the core of a small Express/Mongoose e-commerce server
(`index.js`). The database collections are in-memory tables. The request
handlers that write are methods of one `Store` object. The read-side aggregation
and the request checks are pure functions. The core has three parts:

* **The Cart collection as a state machine** (`store.dfy`, `tables.dfy`). It has
  rows of (id, user id, product id, quantity) and six handlers:
  * add-to-cart finds the row of the (user, product) pair and adds to its
    quantity, or inserts a new row;
  * increment adds 1;
  * decrement subtracts 1, and refuses with 400 when the quantity is already 1
    or less;
  * remove deletes one row by id;
  * clear deletes every row of a user;
  * the admin user-delete deletes the user's rows and then the user.

  The schema has no uniqueness constraint. The store's invariant `Valid` says
  that ids are unique and that no (user, product) pair has two rows. Every
  method is proved to keep it. The find-or-increment step is the pure function
  `AddQuantity`, and lemmas about it state:
  * adds accumulate;
  * the pair never gets a second row;
  * rows of other pairs do not change.

  Increment, decrement and remove look a row up by its id alone. The `:userId`
  path segment is ignored by the source, and by the model too.
* **The read side** (`cart_view.dfy`). The aggregation is `$match` on the user,
  `$lookup` of the product by id, `$unwind`, then `$project`. It is written as
  those stages. The lemmas show:
  * it yields exactly the user's rows joined with an existing product;
  * rows whose product is gone are dropped;
  * with unique product ids, each surviving row yields exactly one line.

  The cart listing answers 404 exactly when that result is empty. Checkout
  answers 400 in the same case. Otherwise checkout builds one line item per
  listed line, in order, with the price in cents.
* **Request checks** (`validators.dfy`). These cover registration (eleven
  required fields, matching passwords, an email not yet registered), the fixed
  admin credentials, the add-product form (image and name required, price and
  rating default to 0), and the product-update id check (exactly 24 hexadecimal
  characters).

ObjectIds (`object_ids.dfy`) arrive as text. The model reads a string as an id
exactly when it is 24 hexadecimal digits. An id sent back as the text the server
hands out is read as the same id (`ParseHexStringRoundTrip`).

Status codes are the `Http.Status` datatype (`Ok` is 200, `Created` 201,
`BadRequest` 400, `Unauthorized` 401, `NotFound` 404, `Conflict` 409,
`InternalError` 500). An absent text field in a request body is `None` or the
empty string. An absent number is `None`. These values, and the number 0, are
falsy in JavaScript, so `!field` is true for them.

The model keeps these behaviours of the code:
* add-to-cart answers 500, not 400, for a user id or product id that is not an
  ObjectId, because the conversion throws inside the handler's `try`;
* clear-cart and user-delete answer 500 for such an id, because the query's cast
  throws;
* quantities are not kept positive: add-to-cart accepts any non-zero number,
  negative ones included, and only decrement enforces the floor of 1;
* the listing's 400 for a missing user id can only be reached when the id is
  empty.

## Model

| member | source | states |
|---|---|---|
| `ObjectIds.ParseObjectId` | index.js:128-137 | a request string is accepted as an ObjectId exactly when it is 24 hexadecimal digits, and then names an id below 16^24 |
| `ObjectIds.ParseHexStringRoundTrip` | index.js:203-207 | the text form of an id that the server hands out (a listed row's `_id`) reads back as that same id when sent in a path |
| `Tables.Filter` | index.js:275 | a `deleteMany`/`$match` condition keeps exactly the documents that satisfy it, and never adds any |
| `Tables.FirstIndex` | index.js:138-141 | `findOne` returns the first document that satisfies the condition, and finds nothing exactly when no document does |
| `Tables.RemoveAtKeys` | index.js:207 | with unique ids, deleting the row found by id leaves exactly the rows with a different id, and ids stay unique |
| `Tables.FilterKeepsKeysDistinct` | index.js:452-453 | deleting by a condition never makes two remaining documents share an id or a (user, product) pair |
| `Tables.DeleteOwnerKeepsOthers` | index.js:275 | deleting user u's rows leaves every other user's rows exactly as they were, in the same order |
| `Tables.DeleteOwnerRemovesAll` | index.js:452 | after deleting user u's rows, no row of u remains |
| `Tables.AddQuantity` | index.js:138-151 | when the pair has a row, that first row keeps its id and its quantity grows by exactly q, and every other row is unchanged; otherwise exactly one row (fresh id, the pair, quantity q) is appended after the unchanged old rows |
| `Tables.AddQuantityTotal` | index.js:142-150 | add-to-cart raises the total quantity held for the (user, product) pair by exactly q and leaves every other pair's total as it was |
| `Tables.AddQuantityKeepsKeys` | index.js:138-151 | add-to-cart keeps at most one row per (user, product) pair, and keeps row ids unique when the new id is fresh |
| `Tables.AddQuantityCumulative` | index.js:142-144 | adding q1 and then q2 for one pair gives the same cart as adding q1 + q2 once, so repeated adds accumulate in one row |
| `Tables.AddQuantityTouchesOnlyPair` | index.js:138-151 | after add-to-cart the pair has a row, and every row of another pair is kept unchanged, with none added |
| `CartView.ProjectEach` | index.js:179-188 | `$unwind` then `$project` gives one line per looked-up product, so none when the lookup found nothing |
| `CartView.UnwindMembership` | index.js:171-188 | the unwound lines are exactly the projections of a row joined with a product whose id is the row's `product_id` |
| `CartView.JoinedMembership` | index.js:165-189 | the user's aggregation holds exactly the projections of that user's rows joined with an existing product |
| `CartView.JoinedEmpty` | index.js:165-192 | the aggregation is empty exactly when none of the user's rows has an existing product |
| `CartView.LookupAtMostOne` | index.js:171-178 | with unique product ids, `$lookup` finds one product when it exists and none otherwise |
| `CartView.UnwindOnePerRow` | index.js:171-179 | with unique product ids, the unwind yields exactly one line per row whose product exists |
| `CartView.CartListing` | index.js:160-198 | 400 for an empty id and 500 for a malformed one; for a well-formed id the answer is the lines or 404, with 404 exactly when no row of the user has an existing product; on success the list is non-empty, is the user's aggregation, and holds exactly the projections of the user's rows joined with an existing product |
| `CartView.ToLineItems` | index.js:315-325 | one line item per joined line, in the same order |
| `CartView.CheckoutLineItems` | index.js:283-313 | 500 for a malformed user id; otherwise 400 exactly when no row of the user has an existing product, and the line items in every other case |
| `CartView.CheckoutFollowsListing` | index.js:288-325 | checkout succeeds exactly when the listing does; item i then carries line i's quantity, name, image, currency `usd` and unit amount price × 100 |
| `CartView.ListingAfterOwnerDeleted` | index.js:271-280 | after user u's rows are deleted, u's listing is 404 and every other user's listing is unchanged |
| `CartView.WidgetScenario` | index.js:315-325 | a "Widget" priced 10 in a cart row of quantity 2 is listed with price 10, and checks out as one item of 1000 cents and quantity 2 |
| `Validators.RegistrationStatus` | index.js:71-78 | 400 exactly when one of the eleven fields is empty or the passwords differ; 409 exactly when they are fine and the email is taken; 201 otherwise |
| `Validators.RegisterTwiceConflicts` | index.js:76-80 | once a form has registered, the same form is refused with 409 |
| `Validators.AdminLoginStatus` | index.js:399-411 | 200 exactly for the fixed pair admin/admin123; 400 exactly when a field is empty; 401 otherwise |
| `Validators.NewProduct` | index.js:529-539 | 400 exactly when the image or the name is missing; otherwise the product has the given fields, with price and rating 0 when absent |
| `Validators.ApplyUpdate` | index.js:557-561 | each given field (name, price, desc, category, rating, img) replaces the stored value and each absent one keeps it; the id never changes, and an empty update changes nothing |
| `Database.DecodeAddToCart` | index.js:127-137 | 500 for a malformed user id or for a malformed product id that is present; 400 for a well-formed user id with a missing product id or quantity; success exactly when both ids are well-formed and both fields present, with the two ids and a non-zero quantity |
| `Database.LocateRow` | index.js:218-226 | 400 exactly when the id is malformed; 404 exactly when no row has the id; success exactly when the id is well-formed and some row has it, with the position of such a row |
| `Database.Store.AddToCart` | index.js:126-157 | refusals change nothing; on success the cart becomes `AddQuantity` of the old cart, and the invariant (unique ids, one row per pair) is kept |
| `Database.Store.RemoveItem` | index.js:201-213 | 400 and no change for a malformed id; otherwise 200, even when no row matched, and exactly the row with that id is gone |
| `Database.Store.Increment` | index.js:216-239 | 400 or 404 and no change; otherwise only the targeted row's quantity grows by exactly 1, and that row is returned |
| `Database.Store.Decrement` | index.js:241-268 | 400 or 404 and no change; 400 and no change when the quantity is 1 or less; otherwise only that row's quantity drops by exactly 1 |
| `Database.Store.ClearCart` | index.js:271-280 | 400 or 500 and no change for an empty or malformed id; otherwise exactly the user's rows are deleted |
| `Database.Store.DeleteUser` | index.js:448-458 | for a well-formed id, exactly the user's cart rows and the user record are deleted; nothing changes otherwise |
| `Database.Store.Register` | index.js:69-85 | the status is `RegistrationStatus`; on 201 exactly one user is added (hashed password, active), and on a refusal nothing is stored |
| `Database.Store.AddProduct` | index.js:525-546 | 400 and nothing stored when `NewProduct` refuses; otherwise 201, and exactly that product is appended and returned |
| `Database.Store.UpdateProduct` | index.js:549-573 | 400 and no change unless the id is 24 hexadecimal characters; 404 and no change when no product has it; otherwise only that product is updated |

## Left out

- HTTP plumbing (routing, CORS, JSON parsing, server start, `index.js:1-15`, `index.js:596`): the handlers' arguments are the already-extracted path and body fields.
- The MongoDB connection and any store failure: the 500 answers of the `catch` blocks for database errors are not modelled. The 500s that come from malformed ids are modelled.
- ObjectId parsing: bson also accepts other forms, such as a 12-byte string, in `isValid` and in `new ObjectId`. Only the 24-hex-digit form is modelled, and one reading serves every call site.
- Store-generated ObjectIds are a counter (`nextId`). Only their uniqueness is modelled, not their timestamp or random parts.
- bcrypt hashing (`index.js:79`) is a caller-supplied value. Login and its hash comparison (`index.js:88-113`) are not part of this model.
- JWT signing and verification with the 1-hour expiry (`index.js:98-102`, `index.js:412`, `index.js:422-429`): cryptography and wall-clock time. Admin login is modelled up to its status, without the token.
- Stripe: the connection probe and `checkout.sessions.create` (`index.js:17-22`, `index.js:327-336`) are foreign network calls. Only the line items handed to them are modelled. The customer email and the redirect URLs are not.
- `Number()` string parsing and floating-point prices (`index.js:143`, `index.js:322`, `index.js:535`): quantities, prices and ratings are integers. A quantity sent as the string "0" is truthy in the source but is 0 in the model.
- Mongoose dropping `undefined` fields from an update is assumed: an absent update field leaves the stored value.
- Concurrency: the lost-update race between concurrent find-then-save requests is not modelled. Each method is one atomic step.
- The remaining admin reads and writes are plain CRUD outside the cart core: the user list with counts, user update, user, product and user-cart detail reads, product list, product delete, and the profile read (`index.js:116-123`, `index.js:378-388`, `index.js:432-445`, `index.js:461-510`, `index.js:515-522`, `index.js:575-593`). The commented-out second checkout route (`index.js:344-374`) is dead code.
