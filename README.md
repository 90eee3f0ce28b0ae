# Session login, registration and chat board: a Dafny model

The modelled application is a small Express server (`index.js`). Clients log
in with a hard-coded admin account, register users through a form with a
presence check, and post to a shared chat board. The server keeps everything
in memory: two process-wide lists, `users` and `messages`, plus the session
of each client.

This project removes HTTP and models the request handling as a state machine:

- `Model` (model.dfy) defines the values. A request is a verb, a path and the
  form fields of its body. A response is a redirect, a page, a 404, a 500,
  Express's automatic answer to OPTIONS, or a static file. The state is the
  two lists plus the session bag, which holds an optional
  `user {username, lastLogin}` and optional per-field `errors`. A page is
  reduced to the data it shows: its title, the user greeted by the
  navigation bar, and its content (the registration errors and user table, or
  the chat's author choices and message list).
- `Rules` (rules.dfy) holds the pure decisions. These are JavaScript
  truthiness of a form field ("absent or empty" is falsy), the request gate,
  the credential test, the registration presence check with its per-field
  error object, and which stored errors the registration page displays.
- `Routes` (routes.dfy) gives `Step`, the effect of one request as a
  function: the static-file middleware first, then the gate, then the route
  table.
- `Server` (server.dfy) is the running application as a class `App`. Its
  fields `users`, `messages` and `session` are updated in place by one method
  per route handler. Each method changes only the fields its `modifies` clause
  names. `Handle` runs the middleware stack and is proved equal to
  `Routes.Step`.
- `Properties` (properties.dfy) states what each route does to the lists and
  the session, taken through the whole stack. It also covers the one-shot
  flash errors, logout locking a client out again, and an end-to-end scenario.
- `Traces` (traces.dfy) proves facts about arbitrary sequences of requests,
  by induction:
  - the lists are append-only;
  - an anonymous client that never asks for `/login` changes nothing;
  - after a successful logout, a client stays locked out until it asks for
    `/login`;
  - a session user only ever appears through an admin login;
  - a signed-in client grows the lists by exactly its complete forms, in
    order.

The outside world becomes parameters (`Env`):
- the clock value that `new Date()` would give;
- whether the session store's `destroy` succeeds;
- whether the static-file middleware finds a file for the path.

Two points where the code is followed exactly:
- The gate exempts the path `/login` for every verb (index.js:87), not only
  `GET /login`. For example, `PUT /login` passes the gate and gets Express's
  404.
- A chat record stores `username` (index.js:257). The chat list reads a
  `nickname` property that records do not have (index.js:238). The model keeps
  the record as stored.

## Model

| member | source | states |
|---|---|---|
| `Server.App.constructor` | index.js:17-20 | A fresh process has no users, no messages and no session. |
| `Server.App.Home` | index.js:95-99 | `GET /` shows the greeting page, with the navigation bar for the session user. |
| `Server.App.LoginPage` | index.js:101-114 | `GET /login` shows the login form, whether or not someone is logged in. |
| `Server.App.Logout` | index.js:116-126 | A successful destruction leaves no user and no errors and redirects to `/login`. A failed one keeps the session and answers 500 with the fixed text. Only the session may change. |
| `Server.App.Login` | index.js:128-142 | The admin pair sets `session.user` to the admin stamped with `now` and redirects to `/`. Any other pair leaves the session unchanged and redirects to `/login`. Only the session may change. |
| `Server.App.RegistrationPage` | index.js:144-191 | Returns the errors stored before the call with all users in insertion order, and sets the stored errors to none. |
| `Server.App.Register` | index.js:193-210 | An incomplete form stores `Validate(body)` as the errors and leaves `users` unchanged. A complete form appends exactly one record with the submitted values. Both redirect to `/cadastro`. Messages cannot change. |
| `Server.App.ChatPage` | index.js:212-247 | Redirects to `/cadastro` if and only if `users` is empty. Otherwise shows every username as an author choice and the whole message history. Changes nothing. |
| `Server.App.PostMessage` | index.js:249-260 | A form with both fields appends exactly one `{message, username, date: now}`, with no check of the author or of `users`. An incomplete form leaves `messages` unchanged. Both redirect to `/batepapo`. |
| `Server.App.NotFoundPage` | index.js:262-264 | `GET` on an unrouted path gives the 404 page with the default title. |
| `Server.App.Handle` | index.js:66-264 | The object's new state and response equal `Routes.Step` of its old state: static files first, then the gate, then the route its verb and path select. |
| `Rules.RequiredMessage` | index.js:198-200 | Each field's required-field message is non-empty. |
| `Rules.Validate` | index.js:196-201 | No errors if and only if all three fields are truthy. Otherwise a field's error is empty if and only if the field is truthy, and a missing field carries its required-field message. |
| `Rules.DisplayedErrorsAreTheMissingFields` | index.js:154-164 | After a failed registration, a message is displayed under exactly the missing fields, and it is the field's required-field text. |
| `Rules.AllowedMethods` | index.js:95-264 | The verbs Express offers for a path in its automatic OPTIONS answer: GET and HEAD first (the catch-all `GET *` matches every path), no verb twice, and POST exactly for `/login`, `/cadastro` and `/batepapo`. |
| `Rules.Usernames` | index.js:225-230 | The author selector lists each user's username, one per user, in list order. |
| `Properties.GateRedirectsAnonymous` | index.js:86-93 | Without a session user, any request for a path other than `/login` (and not a static file) is redirected to `/login` and changes nothing. |
| `Properties.GateLetsThrough` | index.js:86-93 | A request that is not a static file, with a session user or for the path `/login` with any verb, reaches the route table. |
| `Properties.StaticBypassesGate` | index.js:66-93 | A request the static-file middleware answers gets the file whatever the session, and changes nothing. |
| `Properties.LoginStep` | index.js:128-142 | From any session, the response goes to `/` if and only if both fields equal "admin". Then the session user is the admin with `lastLogin == now`. Any other pair leaves the state unchanged and redirects to `/login`. Lists and errors never change. |
| `Properties.LogoutStep` | index.js:116-126 | For a signed-in client, a successful destruction leaves no session user and no errors and redirects to `/login`. A failure answers 500 and keeps the whole state. |
| `Properties.LogoutLocksOut` | index.js:86-126 | After a successful logout, the next request for a path other than `/login` (and not a static file) is redirected to `/login`. |
| `Properties.RegisterIncompleteStep` | index.js:193-205 | With a field missing: `users` and `messages` unchanged, each missing field mapped to its required-field message and each present field to `""`, redirect to `/cadastro`. |
| `Properties.RegisterCompleteStep` | index.js:207-209 | With all three fields: exactly one record appended after the existing users; messages and session unchanged; redirect to `/cadastro`. |
| `Properties.DuplicateRegistrationAccepted` | index.js:207 | Submitting the same complete form twice appends two identical records: usernames need not be unique. |
| `Properties.RegistrationPageStep` | index.js:144-185 | `GET /cadastro` returns the errors stored before the call and the users in insertion order, and leaves the state unchanged apart from clearing the errors. |
| `Properties.FlashErrorsShownOnce` | index.js:144-205 | After a failed registration, the next `GET /cadastro` shows the stored errors (displayed under exactly the missing fields). The one after that shows none. |
| `Properties.ChatPageStep` | index.js:212-247 | `GET /batepapo` never changes the state. It redirects to `/cadastro` if and only if `users` is empty; otherwise it shows the usernames and the message history. |
| `Properties.PostChatStep` | index.js:249-260 | A complete chat form appends exactly one message stamped with `now`, for any author and even with no users. An incomplete one leaves `messages` unchanged. Users and session are never touched; the redirect is always to `/batepapo`. |
| `Properties.UnroutedStep` | index.js:262-264 | For a signed-in client and a request that is not a static file, a `GET` on an unrouted path gets the 404 page. A `POST` on such a path, or any verb other than GET, POST and OPTIONS, gets Express's 404. Neither changes the state. |
| `Properties.OptionsStep` | index.js:86-264 | An OPTIONS request that passes the gate changes nothing and gets Express's 200 listing allowed verbs. The list is `GET, HEAD, POST` exactly for `/login`, `/cadastro` and `/batepapo`, and `GET, HEAD` for every other path. |
| `Properties.ChatScenario` | index.js:128-260 | From a fresh process, logging in as admin, registering "joe" and posting "hi" as "joe" leaves exactly that user and that message (stamped with the post's clock), with the admin logged in. |
| `Traces.AppendOnly` | index.js:193-260 | Over any sequence of requests, the earlier users and messages stay, in place, at the front of both lists. |
| `Traces.AnonymousIsInert` | index.js:86-93 | An anonymous client that never asks for `/login` leaves the whole state unchanged. It only gets redirects to `/login` or static files. |
| `Traces.LoggedOutStaysOut` | index.js:66-126 | After a successful logout, every later request up to the next one for `/login` leaves the state unchanged and gets a redirect to `/login` or a static file. |
| `Traces.AdminOnlyIsKept` | index.js:128-135 | No sequence of requests puts anyone but the admin into the session. |
| `Traces.SessionUserNeedsLogin` | index.js:128-142 | A client that starts anonymous and ends signed in sent an admin login somewhere in the sequence, and its session user is the admin. |
| `Traces.SignedInStep` | index.js:193-260 | One request from a signed-in client, other than a successful logout, keeps the client signed in. It adds to each list at most the record its complete form carries. |
| `Traces.SignedInGrowth` | index.js:193-260 | While a signed-in client does not log out, it stays signed in. `users` grows by exactly the records of its complete registration forms, and `messages` by exactly its complete chat posts, in the order sent. |

## Left out

- The HTML markup of the page shell and the page bodies (index.js:23-63 and the templates). A page is modelled only by its title, its navigation-bar user and its content data.
- Date handling. The birth date stays the submitted text, with no `new Date(data)` parsing (index.js:207). Timestamps are an integer input. Locale formatting (index.js:45-47, 181, 240) is not modelled.
- The chat line's displayed author: the list reads `message.nickname` (index.js:238), which stored records do not carry. Rendered text is not modelled.
- express-session internals: cookie signing, `sameSite`, the 30-minute rolling expiry and the store (index.js:68-82). The model follows one client's session as plain state. Other clients' sessions and interleaved requests from several clients are not modelled.
- After a successful logout, the next request starts with an empty session. The model writes this as `NoSession` at once. The asynchronous `destroy` callback becomes the input `destroyOk`.
- `express.static` (index.js:66) becomes the input `staticServes`: whether a file exists for a `GET` under `/static`. Otherwise the request falls through to the gate, as `express.static` does. Directory redirects and file contents are not modelled.
- Express route matching is case-insensitive and tolerates a trailing slash. The model matches paths exactly; the gate's own comparison (index.js:87) is exact. A HEAD request is written as GET, which is how Express routes it.
- Body-parser rejections. `express.urlencoded` (index.js:84) runs before the gate. It answers 413 for a body over its 100 kB limit and 415 for a charset other than UTF-8. The model takes every body as parsed. Neither rejection changes the state.
- The extended urlencoded parser can produce arrays and objects for form fields. The model takes every form field to be a string.
- `dotenv`, `PORT`, `app.listen` and the console output (index.js:7-12, 119, 267-270) are I/O plumbing and are not modelled.
