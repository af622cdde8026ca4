# Service-provider booking server: payment and account handlers

A Dafny model of the route handlers of `index.js`, an Express server over a
MongoDB database that books service appointments and takes payment for them
through the SSLCommerz gateway. The model covers the handlers that change
state, and the middlewares and routes that decide roles.

- `POST /create-payment` builds the SSLCommerz initiation payload. It then
  calls the gateway. After that it marks the selected appointments `pending`
  under a freshly generated transaction id.
- `POST /success-payment` accepts only a `VALID` status and a transaction id
  some appointment carries. It marks every appointment of that transaction
  `paid`, queues one confirmation email to the stored payer, and redirects to
  the frontend.
- `POST /users` inserts the body unless a user with its email exists.
- `POST /providers` (admin only) sets the user's role to `provider` and
  inserts the provider document, with four outcomes.
- `verifyToken`, `verifyAdmin`, `verifyProvider`, `GET /user/admin/:email` and
  `GET /user/provider/:email` decide roles from the users collection.

State lives in a `Store` class (`store.dfy`). Its fields are the three
collections the handlers write, plus an outbox of the emails handed to the
mail service. Each handler is a method that runs the route's awaited steps in
the route's order. The methods' contracts state the whole new state, the
reply, and what stays unchanged. The pure parts are functions with lemmas:

- the payload (`gateway.dfy`);
- the `$set` updates and their composition (`payments.dfy`);
- user lookup, registration and promotion (`accounts.dfy`);
- the role gates (`roles.dfy`);
- the MongoDB primitives (`documents.dfy`).

Modelling choices:

- A collection is a sequence of documents in natural order, taken to be
  insertion order. `findOne` returns the first match in that order.
- A request field that is undefined reaches MongoDB as null, and a filter
  `{field: null}` matches a missing or null field. So every filtered field is
  an `Option`, and a filter is equality on it: an absent `tran_id` matches
  every appointment without a `paymentId`.
- The gateway is a function of the payload. It answers `Unreachable` (axios
  throws) or `Replied` with or without a `GatewayPageURL`.
- A handler that throws before answering is modelled as `Unanswered`, with
  the store untouched. What Express then does with the request is outside
  the model.
- `Store.Valid()` states what the modelled handlers preserve:
  - ids are unique in each collection;
  - each email has at most one user, and at most one provider;
  - every provider's email is a user whose role is `provider`;
  - appointments sharing a transaction id share the payer's email.

  When the callback carries a `tran_id`, the last one makes the
  confirmation recipient the payer of every appointment the callback pays.

Behaviour of `index.js` that the model reproduces as written:

- `/create-payment` calls the gateway before it updates any appointment
  (index.js:146-173), so a failed gateway call changes nothing.
- `/create-payment` checks neither that the selected appointments exist nor
  that they are unpaid. An empty selection updates nothing and still returns
  the page URL. An already-paid appointment goes back to `pending` under the
  new transaction id.
- `/success-payment` does not check whether the transaction was already paid,
  so a repeated callback sends the confirmation email again
  (`Server.DeliverTwice`).
- A `VALID` callback without `tran_id` filters on `{paymentId: null}`, so it
  marks every never-reserved appointment "paid" and emails only the first of
  them.

`Accounts.SelfRegisteredRoleHolds` shows one consequence of `POST /users`.
The handler stores the body as sent, so a new account whose body says
`role: "admin"` passes `verifyAdmin`.

## Model

| member | source | states |
|---|---|---|
| `Documents.ParseObjectId` | index.js:159 | `new ObjectId(text)` succeeds exactly on 24 hex digits of either case, and yields the id whose digits are that text's digits lower-cased |
| `Documents.ParsePrintedId` | index.js:116 | the text `toString()` prints for an id parses back to that same id |
| `Documents.ParseObjectIds` | index.js:157-161 | the `$in` list exists iff every selected text is an ObjectId, and then holds exactly the parsed ids |
| `Documents.FindOne` | index.js:191-193 | `findOne({field: value})` returns the first document in natural order whose field equals the value, and none iff no document matches |
| `Documents.UpdateMany` | index.js:170-173 | `updateMany` rewrites exactly the selected documents' bodies and keeps every other document, every position and every `_id` |
| `Documents.FindOneUnique` | index.js:244 | when the field is unique across the collection, `findOne` returns the one matching document |
| `Accounts.FindUser` | index.js:334 | a user is found for an email iff some user document has that email, and the found user is the body of the first stored document with that email |
| `Accounts.HasRoleIffSomeUser` | index.js:88-90 | with one user per email, `user?.role === role` holds iff some user with that email has exactly that role |
| `Accounts.RegistrationKeepsUsers` | index.js:243-253 | inserting a user whose email is new keeps emails and ids unique, leaves every existing email's role as it was, and gives the new email the body's role |
| `Accounts.SelfRegisteredRoleHolds` | index.js:240-254 | a newly registered body carrying `role: "admin"` makes its email pass the admin role check |
| `Accounts.PromotionSetsOneRole` | index.js:338-341 | `updateOne({email}, {$set: {role: "provider"}})` makes that email a provider and changes no other email's role or presence |
| `Accounts.PromotionKeepsInvariants` | index.js:324-345 | promotion followed by the provider insert keeps users' and providers' ids and emails unique, and every provider a user with role `provider` |
| `Roles.VerifyRole` | index.js:86-107 | `verifyAdmin`/`verifyProvider` admit iff the first stored user with the decoded email (in natural order) has exactly that role; every other answer is 403 "forbidden access" |
| `Roles.Guard` | index.js:71-107 | the chain `verifyToken, verifyAdmin` admits iff the token verifies and its email holds the role; it answers 401 "unauthorize access" iff there is no valid token, and 403 otherwise |
| `Roles.RoleStatus` | index.js:268-293 | the role routes answer 401 without a token, 403 when the path email is not the token's, and for the token's own email always a flag, which is whether that email's user has exactly the role |
| `Roles.RoleStatusAgreesWithGuard` | index.js:268-293 | the route answers `true` iff the token is for the path email and the role gate admits it, and `false` iff the token is for that email and the gate would answer 403 |
| `Roles.AdminAndProviderExclusive` | index.js:86-107 | no token passes both the admin gate and the provider gate |
| `Gateway.OrDefault` | index.js:126-142 | JavaScript's or-default yields either the supplied text or the fallback, never an empty text while the fallback is non-empty, and the supplied text whenever it is non-empty |
| `Gateway.OrDefaultIdempotent` | index.js:126-142 | with a non-empty fallback, defaulting an already defaulted field again leaves it as it is |
| `Gateway.BuildInitiateData` | index.js:117-143 | `tran_id` is the generated id, `currency` is "BDT", `total_amount` is the request's, the callback URLs are the backend's three routes, each customer and value field is the request's text under its fixed default, and none of those fields is empty |
| `Gateway.RebuildIsFixpoint` | index.js:126-142 | defaults only fill gaps: posting a built payload's own customer fields again rebuilds the same payload |
| `Payments.MarkPending` | index.js:157-173 | each appointment whose id is selected gets status "pending", the new `paymentId` and the supplied `customerEmail`, with its other fields kept; every other appointment is unchanged |
| `Payments.MarkPaid` | index.js:202-206 | each appointment carrying the transaction id becomes "paid" and keeps that id and its other fields; every other appointment is unchanged |
| `Payments.MarkPendingFormsBatch` | index.js:157-173 | under a fresh transaction id, the appointments carrying it afterwards are exactly the selected ones, and batches still share one payer email |
| `Payments.MarkPaidKeepsBatches` | index.js:202-206 | the success update keeps every batch's payer email shared |
| `Payments.MarkPaidIdempotent` | index.js:191-206 | a repeated success update changes nothing, and the repeated lookup finds the same first appointment |
| `Payments.RecipientIsEveryPayer` | index.js:191-199 | with consistent batches and a `tran_id` present, the email read from the first matching appointment is the `customerEmail` of every appointment the callback pays |
| `Payments.ReserveThenPay` | index.js:157-206 | reserving a batch under a fresh id and then paying that id leaves exactly the selected appointments "paid" with that id and the payer's email; every other appointment is as before; the lookup succeeds iff the batch is non-empty and then reads the payer's email |
| `Server.Store.constructor` | index.js:52-64 | the store starts over consistent collections with an empty outbox |
| `Server.Store.CreatePayment` | index.js:112-178 | the gateway sees the built payload. The page URL is sent iff the gateway answered and the selection is present and holds only ObjectIds; then exactly the selected appointments are reserved under the fresh id. A failed call, a missing selection or a non-ObjectId changes nothing and sends nothing. Users, providers and outbox never change |
| `Server.Store.SuccessPayment` | index.js:179-221 | a non-"VALID" status gives 400 and an unknown `tran_id` gives 404, with no change and no email. Otherwise every appointment with that id becomes "paid" and nothing else changes. Exactly one email is queued, to the first match's `customerEmail`, which, when `tran_id` is present, is every paid appointment's payer. The reply redirects to `<frontend>/success` |
| `Server.Store.RegisterUser` | index.js:240-255 | answers "already exists" and changes nothing iff a user with the body's email exists; otherwise appends the body under the fresh id |
| `Server.Store.AddProvider` | index.js:319-356 | a token that fails the admin gate is denied. An email that already has a provider changes nothing; so does an email that has no user. A user whose role changes becomes "provider" and the body is inserted as a provider. A user already "provider" gets no insert. Appointments and outbox never change |
| `Server.DeliverTwice` | index.js:179-221 | a second identical callback gets the same reply and leaves the appointments as the first left them; users and providers never change; on a redirect the outbox gains exactly two copies of the confirmation to the first match's payer, after the earlier entries |

## Left out

- Express wiring, CORS, the body parsers, the rate limiter and the server's start-up (index.js:16-35, 633-638). They are framework configuration.
- The MongoDB client and connection (index.js:37-68). The collections are in-memory sequences in natural order.
- JWT signing and verification (index.js:71-83, 231-237). `verifyToken` is an input that is either no valid token or a decoded email.
- The SSLCommerz POST through axios and qs (index.js:146-154). The gateway is a function from the payload to its reply; form encoding and the network are not modelled.
- The Resend email send (index.js:209-218). It is an append of the interpolated values to `outbox`; the html rendering and delivery are not modelled.
- `new ObjectId()` (index.js:116) and the ids `insertOne` generates. They are parameters, each required unused in its collection.
- `Server.Store.SuccessPayment`: assumes the email send returns. A send that throws would leave the appointments paid with no redirect sent.
- `Documents.ParseObjectId`: models only the string argument, as bson 6 parses it. Array elements that are null, numbers or byte arrays (which `new ObjectId` also takes) are not modelled, nor the 12-character strings that bson 4 also accepted; the driver version is not part of this model.
- Request bodies are modelled as text fields, present or absent. Non-string JSON values, and falsy values other than absent, null and "" under `||`, are not modelled.
- `Server.Store.RegisterUser`, `Server.Store.AddProvider`: a request body that carries its own `_id` is not modelled. `insertOne` (index.js:253, 345) would keep that `_id`, and throw a duplicate-key error if it is taken; the model always stores the document under a fresh id.
- `index.js` has no archiving of completed appointments and no payment history store.
- `POST /users` also looks up a provider with the email (index.js:245) and never uses the result. The model omits that read.
- What Express does after a handler throws (no answer, a crash, or a 500, depending on versions) is outside the model.
- Concurrency: each handler runs as one atomic step. Requests interleaving between a handler's lookup and its update are not modelled.
- Other writers of these collections are not modelled: `POST /appointments`, `PATCH /appointment`, `PATCH /appointments`, `DELETE /providers/:id` and `PATCH /user/admin/:id`, which sets a user's role to "admin" and so can take the provider role from a user who has a provider document. `Store.Valid()` is preserved by the modelled handlers only.
- Blog date formatting with `toLocaleTimeString`/`toLocaleDateString` (index.js:494-508). It is locale-dependent library behaviour.
- `DELETE /appointments/:id` (index.js:462-467). It refers to an undefined `query` and always throws.
- `PATCH /user/admin/:id` (index.js:296-306). It passes the whole `req.params` object to `ObjectId`, which reads that object's `id` property; object arguments to `ObjectId` are outside `Documents.ParseObjectId`.
- The listing and lookup routes (`/providers`, `/categories`, `/reviews`, `/contacts`, `/AllAppointments`, blogs and similar). They only query the store.
- `console.log` calls, and the fail and cancel callbacks (index.js:223-228). The callbacks only redirect to `<frontend>/fail`.
