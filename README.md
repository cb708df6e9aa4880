# Product catalogue: a verified model of its request and client logic

This project models the decision and state-update logic of a small product
catalogue web application: an Express/MongoDB API with token authentication
and server-side token revocation, a React client and a jQuery client.

- **API server** (`Server`): the `authenticateToken` and `adminOnly`
  middlewares, `POST /login`, `POST /logout`, `GET /admin` and the five
  product handlers. The class `Server.Api` owns the product collection (a map
  from id to product, plus the collection's natural order) and the
  revoked-token collection, and every handler returns a status with its JSON
  body and updates these stores. The JWT library (`jwt.verify`, `jwt.decode`,
  `jwt.sign`), the password check (`comparePassword`), the clock and every
  database failure are parameters of the operation that uses them.
- **Product schema** (`ProductSchema`): the required `name` and `price`, the
  defaults for `image` ("https://via.placeholder.com/150") and `type`
  ("General"), the timestamps, and the update with validators that `PUT`
  performs.
- **Revoked-token schema** (`RevokedTokenSchema`): a map from token to
  `createdAt`, the unique token, and the 3600-second TTL as a "visible at time
  t" predicate plus one pass of the TTL monitor.
- **React client** (`ProductsView`, `ProductFormComponent`,
  `ProductItemComponent`): the product list and message of the products page,
  the add form, and the edit state machine of one row.
- **jQuery client** (`StaticClient`): the products-page token gate, the
  payload-segment selection and base64url-to-base64 mapping of `decodeToken`,
  the form checks, and the edit price read back from the displayed text.
- Shared helpers: `JsValues` (JavaScript values and truthiness), `JsStrings`
  (`trim`, `split`, `join`, `replace`), `FormChecks`, `Wrappers`.

Behaviour is modelled as the code has it:

- `POST /logout` without a token answers 404 "No token provided"
  (`backend/server.js:184-188`).
- A second revocation of the same token is not treated as idempotent. The
  unique index rejects the insert, the handler's `catch` answers 500 "Logout
  failed", and the store keeps its single record.
- `expiresAt` is passed to `RevokedToken.create` but is not a path of the
  schema. It is never stored. A record lives 3600 s from `createdAt`,
  whatever the token's own `exp` (`RevokedTokenSchema.ExpiresAtIgnored`).
- `PUT /products/:id` has no 400 check. Paths left undefined keep their
  stored values: Mongoose 6 or later is assumed, whose `findByIdAndUpdate`
  drops keys whose value is undefined (Mongoose 5 would set them to null). A null or empty `name` or `price` fails the schema
  validators, which gives 500. The validators run before the lookup, so an
  invalid update of an absent id is also 500, not 404.
- `POST /products` refuses a price of `0` with 400 (the check is
  JavaScript truthiness), although the schema itself accepts 0.
- Logout does not verify the token's signature before revoking it.

Times are integers in milliseconds (`Date.now()`); JWT `iat`/`exp` are in
seconds. MongoDB's TTL monitor removes a record once `now > createdAt + 3600 s`,
so a record is visible while `now <= createdAt + 3600 s`. A query such as
`RevokedToken.exists` sees every record the monitor has not yet removed. The
monitor's pass is the separate step `Server.Api.ExpireRevoked`.

## Model

| member | source | states |
|---|---|---|
| JsValues.Truthy | frontend-react/src/components/ProductForm.js:10 | ECMAScript ToBoolean: undefined, null, false, 0 and "" are falsy; every other value is truthy |
| JsValues.LessThan | frontend/script.js:16 | `v < n` for a number, a boolean (as 1 or 0) or null (as 0); false for everything else |
| JsStrings.Trim | frontend-react/src/components/ProductForm.js:10 | `trim()` removes only leading and trailing white space (the ECMAScript WhiteSpace and LineTerminator set): the result is a middle slice of the input whose cut-off ends are all white space, and neither end of the result is white space |
| JsStrings.TrimStart | frontend-react/src/components/ProductItem.js:12 | the result is a suffix of the input, what was removed is all white space, and the result does not start with white space |
| JsStrings.TrimEnd | frontend-react/src/components/ProductItem.js:12 | the result is a prefix of the input, what was removed is all white space, and the result does not end with white space |
| JsStrings.TrimEmptyIffBlank | frontend-react/src/components/ProductForm.js:10 | `s.trim()` is empty if and only if every character of `s` is white space |
| JsStrings.Split | backend/server.js:103 | `split` gives at least one field and no field contains the separator |
| JsStrings.JoinSplit | backend/server.js:103 | joining the fields of `split` with the separator gives back the original header |
| JsStrings.SplitWithoutSeparator | frontend/script.js:231 | a string without the separator splits into itself alone |
| JsStrings.SplitAfterPiece | backend/server.js:103 | a separator-free first piece followed by the separator becomes the first field, and the rest splits on its own |
| JsStrings.SplitJoin | backend/server.js:103 | splitting a join of separator-free pieces gives the pieces back |
| JsStrings.Field | frontend/script.js:231 | a field `split(sep)[k]`, when there is one, never contains the separator |
| JsStrings.NoSecondFieldWithoutSeparator | frontend/script.js:231 | a string without the separator has no field 1, so `split(sep)[1]` is undefined |
| JsStrings.FieldOfJoin | backend/server.js:103 | field `k` of joined pieces is piece `k`, or undefined past the last piece |
| JsStrings.ReplaceAll | frontend/script.js:232 | a global one-character replace keeps the length and changes exactly the matching characters |
| JsStrings.IndexOf | frontend/script.js:87-91 | the first occurrence of a character: no earlier occurrence, and `|s|` when absent |
| JsStrings.ReplaceFirst | frontend/script.js:87-91 | `replace('$', '')` removes only the first '$' and leaves a string without '$' unchanged |
| FormChecks.FilledIff | frontend-react/src/components/ProductForm.js:10 | the product form passes exactly when the name has a non-white-space character and the price is truthy |
| FormChecks.ProductFieldsFilled | frontend-react/src/components/ProductForm.js:10 | the product form may be sent when the trimmed name is not empty and the price is truthy |
| ProductSchema.Create | backend/models/products.js:3-25 | a new product is accepted iff `name` and `price` satisfy `required` and no path holds an object or array (the only cast failure modelled); it keeps the sent name and price, `image` defaults to the placeholder URL and `type` to "General" only when undefined, and both timestamps are the creation time |
| ProductSchema.Valid | backend/models/products.js:5-20 | a stored product has a name and price that satisfy `required` and an image and type that are set |
| ProductSchema.Update | backend/server.js:244-248 | the update is accepted iff every defined `name`/`price` satisfies `required` and no path holds an object or array (the only cast failure modelled); undefined paths keep their stored values, id and `createdAt` are kept, `updatedAt` becomes the current time |
| ProductSchema.UpdateKeepsValid | backend/models/products.js:5-20 | an accepted update keeps a product's required paths filled and its defaulted paths set |
| ProductSchema.UpdateKeepsAbsentPaths | backend/models/products.js:13-20 | an update that sets nothing changes only `updatedAt`; defaults are not applied again |
| RevokedTokenSchema.Create | backend/models/revokedTokens.js:3-10 | an empty token fails `required`, a token already stored fails the unique index, and the insert succeeds exactly when the token is non-empty and not yet stored; it then adds exactly one record for it with `createdAt` = insertion time |
| RevokedTokenSchema.Visible | backend/models/revokedTokens.js:5-9 | a record is still stored at time `now` iff it was inserted and `now` is at most 3600 s after its `createdAt` |
| RevokedTokenSchema.Purge | backend/models/revokedTokens.js:5-9 | one TTL pass keeps exactly the records still within 3600 s of `createdAt`, unchanged |
| RevokedTokenSchema.DuplicateRejected | backend/models/revokedTokens.js:4 | after one insert, a second insert of the same token is rejected as a duplicate and the stored record keeps its first `createdAt` |
| RevokedTokenSchema.ExpiresAtIgnored | backend/models/revokedTokens.js:3-10 | the `expiresAt` passed to `create` has no effect on what is stored |
| RevokedTokenSchema.RevocationWindow | backend/models/revokedTokens.js:5-9 | a record inserted at `now` is visible at exactly the later times up to `now + 3600 s`, and no TTL pass up to then removes it |
| Server.BearerToken | backend/server.js:102-105 | a token, when found, is non-empty and contains no space |
| Server.BearerTokenOfHeader | backend/server.js:103 | a header `scheme token ...` yields `token` whatever the scheme word is |
| Server.EmptySecondField | backend/server.js:103-105 | a header whose second space-separated field is empty (`scheme  token`, a double space) carries no token, whatever follows |
| Server.NoBearerToken | backend/server.js:102-105 | no header, a header without a space, and `scheme ` with nothing after it all give no token |
| Server.AuthenticateToken | backend/server.js:101-124 | the request proceeds iff there is a token, the revocation lookup succeeds and does not find it, and the signature verifies; `req.user` is then the verified payload |
| Server.MissingTokenIs401 | backend/server.js:102-105 | without a token the answer is a plain 401, the same for every revocation store, lookup outcome and verification result |
| Server.RevokedIs401 | backend/server.js:108-111 | a revoked token gets 401 "Token revoked" whether or not its signature verifies |
| Server.InvalidIs403 | backend/server.js:113-117 | a token that is not revoked and fails verification gets 403 "Invalid token" |
| Server.LookupFailureIs500 | backend/server.js:121-123 | a failed revocation lookup gives 500 "Authentication failed" whatever the signature |
| Server.AdminOnly | backend/server.js:127-134 | the request proceeds iff there is a user whose `role` is exactly the string "admin"; otherwise 403 "Admin access required" |
| Server.IssuedPayload | backend/server.js:157-161 | the signed payload carries the user's id and role, and `exp` is one hour after the issuing second |
| Server.Login | backend/server.js:146-167 | 200 with a token iff the user exists, the password matches and nothing fails; the token is for that user and role; an unknown user or a wrong password gives 401 "Invalid credentials"; a failed lookup, a failed password check or a failed signing gives 500 "Login failed" |
| Server.LoginDoesNotRevealUsers | backend/server.js:150-155 | an unknown username and a wrong password get the identical 401 response |
| Server.IssuedTokenRole | backend/server.js:157-161 | a token issued at login passes `adminOnly` exactly when the stored role is "admin" |
| Server.LoggedOutTokenIsRefused | backend/server.js:176-179 | once logout has inserted its record, the token gate refuses that token with 401 "Token revoked" even when it verifies |
| Server.ExpOf | backend/server.js:175 | `decoded?.exp`: undefined when the token did not decode to an object |
| Server.BodyFields | backend/server.js:201 | the request body's `name`, `price`, `image` and `type` |
| Server.Api.constructor | backend/server.js:9-11 | both collections start empty and consistent |
| Server.Erase | backend/server.js:264 | removing an id leaves every other id and keeps the ids distinct |
| Server.EraseConcat | backend/server.js:264 | erasing an id from a concatenation erases it from each part, so the remaining ids keep their natural order |
| Server.Api.Authenticate | backend/server.js:101-124 | the middleware's verdict against this server's revocation store is `AuthenticateToken`'s |
| Server.Api.AdminPanel | backend/server.js:141-143 | `GET /admin` welcomes exactly an authenticated admin; otherwise it answers with the first gate's refusal |
| Server.Api.Logout | backend/server.js:169-191 | no token gives 404 and no change; a `jwt.decode` that throws gives 500 "Logout failed" and no change; a token whose decoded `exp` is falsy succeeds and inserts nothing; otherwise one record for the token string is inserted and 200 returned, or, on an insert failure or a duplicate, 500 with no change |
| Server.Api.ExpireRevoked | backend/models/revokedTokens.js:5-9 | the TTL monitor leaves exactly the records still within their lifetime |
| Server.Api.CreateProduct | backend/server.js:199-216 | a falsy name or price gives 400 and no change; a schema or save failure gives 500 and no change; otherwise 201 with the new product, which is added as the last one and is the only change |
| Server.Api.ListProducts | backend/server.js:218-225 | 200 with every stored product exactly once, in natural order; 500 on a store failure |
| Server.Api.GetProduct | backend/server.js:227-239 | 200 with the stored product, 404 for an absent id, 500 on a store failure |
| Server.Api.UpdateProduct | backend/server.js:241-260 | 500 with no change when the store fails or the update fails its validators; 404 with no change for an absent id; otherwise 200 with the updated product, which replaces only that product |
| Server.Api.DeleteProduct | backend/server.js:262-274 | 404 with no change for an absent id; otherwise exactly that product is removed; 500 with no change on a store failure |
| ProductsView.AuthEffect | frontend-react/src/components/Products.js:16-24 | once loading has finished, an unauthenticated user is sent to /login and nothing is loaded; an authenticated user's products are loaded |
| ProductsView.FailureMessage | frontend-react/src/components/Products.js:55-67 | the message a failure shows: the thrown error's message, the not-ok error's text, or the server's own `message` |
| ProductsView.WithEdit | frontend-react/src/components/Products.js:84-88 | the list keeps its length; products with the id get the new name and price and nothing else changes |
| ProductsView.WithEditAbsent | frontend-react/src/components/Products.js:84-88 | editing an id that no product has leaves the list unchanged |
| ProductsView.Without | frontend-react/src/components/Products.js:112 | the result holds exactly the products whose id differs |
| ProductsView.WithoutConcat | frontend-react/src/components/Products.js:112 | filtering distributes over concatenation, so the remaining products keep their relative order |
| ProductsView.WithoutAbsent | frontend-react/src/components/Products.js:112 | deleting an id no product has leaves the list unchanged |
| ProductsView.Page.constructor | frontend-react/src/components/Products.js:11-13 | the page starts with no products and an empty message |
| ProductsView.Page.Fail | frontend-react/src/components/Products.js:39-41 | a failure sets the message and marks it as an error, leaving the list |
| ProductsView.Page.Load | frontend-react/src/components/Products.js:26-43 | a successful reply replaces the list with the server's data; a not-ok response, a `success: false` reply or a thrown error keeps the list and shows an error |
| ProductsView.Page.Add | frontend-react/src/components/Products.js:45-69 | a successful reply with data appends that product after the unchanged earlier ones; any failure keeps the list and shows an error |
| ProductsView.Page.Update | frontend-react/src/components/Products.js:71-99 | a successful reply sets name and price on the products with that id only; any failure keeps the list and shows an error |
| ProductsView.Page.Delete | frontend-react/src/components/Products.js:101-123 | declining the confirmation changes nothing; a successful reply removes exactly the products with that id; any failure keeps the list and shows an error |
| ProductFormComponent.Form.constructor | frontend-react/src/components/ProductForm.js:5-6 | both fields start empty |
| ProductFormComponent.Form.ChangeName | frontend-react/src/components/ProductForm.js:24 | typing sets the name |
| ProductFormComponent.Form.ChangePrice | frontend-react/src/components/ProductForm.js:34 | typing sets the price |
| ProductFormComponent.Form.Submit | frontend-react/src/components/ProductForm.js:8-14 | a whitespace-only name or an empty price calls nothing and keeps the fields; otherwise exactly one call with the untrimmed name and the price, and both fields are reset to "" |
| ProductItemComponent.Item.constructor | frontend-react/src/components/ProductItem.js:5-7 | a row starts not editing, with buffers equal to the product's name and price |
| ProductItemComponent.Item.Receive | frontend-react/src/components/ProductItem.js:4 | a new product prop for the same row replaces the product and keeps the buffers |
| ProductItemComponent.Item.Edit | frontend-react/src/components/ProductItem.js:9 | Edit starts editing and leaves the buffers |
| ProductItemComponent.Item.ChangeName | frontend-react/src/components/ProductItem.js:48 | typing sets the name buffer to the typed string |
| ProductItemComponent.Item.ChangePrice | frontend-react/src/components/ProductItem.js:54 | typing sets the price buffer to the typed string |
| ProductItemComponent.Item.Save | frontend-react/src/components/ProductItem.js:11-15 | a blank name or a falsy price calls nothing and stays in the current mode; a non-string name throws with no change; otherwise one call `onUpdateProduct(product._id, editName, editPrice)` and editing ends |
| ProductItemComponent.Item.Cancel | frontend-react/src/components/ProductItem.js:17-21 | Cancel ends editing and restores both buffers to the product's current values |
| StaticClient.Base64UrlToBase64 | frontend/script.js:232 | the result has the same length, maps '-' to '+' and '_' to '/' and nothing else, and contains no '-' or '_' |
| StaticClient.PayloadSegment | frontend/script.js:231 | the payload segment contains no '.', and a token without '.' has none |
| StaticClient.DecodeToken | frontend/script.js:229-246 | the second '.'-separated segment, mapped to base64, is what gets parsed; a token without that segment decodes to null |
| StaticClient.DecodeTokenOfPieces | frontend/script.js:231-232 | for a token made of '.'-free pieces `h.p.s...`, what gets parsed is the second piece `p` mapped to base64 |
| StaticClient.ProductsGate | frontend/script.js:8-29 | the page redirects without clearing iff there is no stored token; it is shown only when the payload was readable |
| StaticClient.GateExpiry | frontend/script.js:16-22 | a numeric non-zero `exp` is refused iff it is before the current second; `exp` equal to the current second, or missing, is accepted; an unreadable payload clears the storage |
| StaticClient.TokenWithoutSegmentIsCleared | frontend/script.js:24-29 | a stored token without a '.' is cleared and redirected |
| StaticClient.Browser.constructor | frontend/script.js:3-4 | the browser state is the stored token, username and page |
| StaticClient.Browser.ClearAndLeave | frontend/script.js:18-20 | both stored entries are removed and the login page opens |
| StaticClient.Browser.OpenProductsPage | frontend/script.js:6-32 | no token: redirect only; expired or unreadable payload: clear both entries and redirect; otherwise storage and page are untouched and the page goes on to load |
| StaticClient.Browser.LoginSucceeded | frontend/script.js:176-179 | a successful login stores the token and username and opens the products page |
| StaticClient.Browser.LogoutSucceeded | frontend/script.js:69-73 | a successful logout clears both entries and opens the login page |
| StaticClient.ProductSubmission | frontend/script.js:37-43 | add and save send the trimmed name and the price exactly when the name is not blank and the price not empty |
| StaticClient.LoginSubmission | frontend/script.js:162-168 | login sends the trimmed username and password exactly when neither is blank |
| StaticClient.BlankNameNotSent | frontend/script.js:112-117 | a whitespace-only name is never sent, whatever the price |
| StaticClient.EditPriceOfLabel | frontend/script.js:87-91 | removing the first '$' from a row's displayed price `$<price>` gives back that price, even when the price itself contains '$' |
| StaticClient.EditPrice | frontend/script.js:87-91 | the edit form's price is the displayed text with its first '$' removed |
| StaticClient.PriceLabel | frontend/script.js:212 | a row shows its price as "$" followed by the price |

## Left out

- Express setup, helmet CSP, CORS, the rate limiters, static hosting, both `app.listen` calls and `GET /check`: framework configuration and I/O.
- Route dispatch: the catch-all 404 middleware registered before the inline handlers, and the mounted `productRoutes`/`userRoutes` (not part of this model). Each handler is modelled on its own; only `GET /admin` is composed with its middlewares. The protected product handlers are the code that runs after `authenticateToken` lets a request through.
- JWT signing, verification and decoding, and the bcrypt password comparison: foreign libraries. Their results are the `verify`, `decodeFails`/`decoded`, `check` and `signFails` parameters.
- The MongoDB connection and async/await: stores are in-memory maps. Each awaited call that can throw is a boolean parameter (`storeFails`, `saveFails`, `insertFails`, `lookupFails`, `findFails`).
- ProductSchema.Create: Mongoose's cast of `price` to Number is not modelled. A string price other than "" is accepted and stored as sent, although Mongoose rejects a non-numeric string such as "abc" with a CastError and stores a numeric one as a number. The cast of `name` to String is not modelled either. The only cast failure modelled is an object or array in a String path.
- ProductSchema.Update: the same gap. A defined non-numeric string `price` passes the modelled validators, although Mongoose's cast rejects it.
- Server.Api.CreateProduct: a price Mongoose cannot cast is not detected by the model. That outcome (500, no change) is the `saveFails` case.
- Server.Api.UpdateProduct: a price Mongoose cannot cast (`PUT` with price "abc") is not detected by the model. That outcome (500 before the lookup, no change) is the `storeFails` case, as is a malformed ObjectId in `GET`, `PUT` and `DELETE`.
- Server.Api.ListProducts: the natural order of the collection is taken to be insertion order.
- Server.Login: takes the username as a string. A body without a string username (a missing field or a query object) is not modelled.
- JsValues.LessThan: a string or object `exp` is treated as NaN. JavaScript would compare a numeric string by its value.
- The TTL monitor runs about once a minute on its own. Here it is an explicit step, so a record may be seen for some time after its lifetime.
- Concurrency: requests and React state updates are taken one at a time. The stale `products` closure that two overlapping requests in `Products.js` would share is not modelled.
- JSX rendering, navigation, `fetch`/`$.ajax`, `confirm` (a `confirmed` parameter), `showMessage` and its timer, the welcome text, and the rendering of the list in `loadProducts` of the jQuery client.
- `atob`, `decodeURIComponent` and `JSON.parse` in `decodeToken`: a `parse` parameter gives what the page reads from the base64 text.
- `handleLogout` in `Products.js`, `Login.js`, both `App.js` files, `frontend-materialui/src/config.js` and `backend/hash.js`: routing, network calls, an environment switch and a one-off script.
- Prices: no arithmetic is done on them. A price is a JavaScript value judged by truthiness, with no floating point.
