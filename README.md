# Session and article synchronisation of the App component

This project models the handlers of the React `App` component in
`frontend/components/App.js`, and proves properties about them. The handlers
are `logout`, `login`, `getArticles`, `postArticle`, `updateArticle` and
`deleteArticle`, plus the two redirect helpers. Together they drive a small
state machine. Its state is:

- the status `message`;
- the `articles` collection;
- `currentArticleId`;
- the `spinnerOn` flag;
- the token stored under the localStorage key `'token'`;
- the router location (`'/'` or `'/articles'`).

Every handler except `logout` follows the same lifecycle. It clears the
message and turns the spinner on. It makes one remote call (two for an update
or delete that succeeds). It branches on the outcome, and it turns the spinner
off in `finally`. The remote call is not performed. Its outcome is a
parameter:

- `Outcome` for the axios calls: `Ok(payload)`, `HttpError(status)`, or
  `NoResponse` when the promise rejects without a response;
- `LoginReply` for the login `fetch`: `Answered(ok, body)`, or `Failed` when
  `fetch` or `response.json()` rejects.

The model also keeps a log of the requests sent. Each entry records the
endpoint, the body and the `Authorization` value. With this log, "makes no
remote call", "refetches exactly once" and "sends the stored token" are
properties that can be proved.

Modules:

- `Remote` (remote.dfy): the articles, the payloads, the outcomes and the
  requests.
- `Handlers` (handlers.dfy): each handler as a pure function of the start
  state and the call outcome(s), giving the settled state and, where the
  handler can reject, an `Exit` that says whether its promise rejected. Each
  function's `ensures` state the handler's properties, and `Controller.App`
  is proved to compute the same state step by step.
- `Controller` (controller.dfy): `class App`, with the six state fields, the
  request log, and one method per handler. Each method updates the fields in
  the source's order and is proved to settle in the state its `Handlers`
  function gives. `UpdateArticle` and `DeleteArticle` call `GetArticles` on
  the same object, as the source awaits `getArticles()`. Remote calls go
  through `Send`, whose precondition says the spinner is on and the message
  is cleared.
- `Runs` (runs.dfy): any sequence of handler invocations (a trace), and
  lemmas, proved by induction, about the state after a trace.

Behaviours modelled as the code has them:

- `login` with a non-ok response sets nothing. The message stays `''`
  (App.js lines 52-59).
- No 401 path clears the stored token (App.js lines 88, 124-125, 157-158
  and 183).
- `getArticles`, `postArticle` and `deleteArticle` set no message on a non-401
  failure. Only `updateArticle` shows an error text (App.js lines 159-161).
- `error?.response.status` throws when the error carries no response
  (App.js lines 88, 124 and 183). The handler then rejects (`Exit.Threw`),
  after `finally` has turned the spinner off.
- The refetch inside `updateArticle` can reject. `update` catches that, finds
  no `response`, and shows the update error text.
- The refetch inside `deleteArticle` can reject. `delete` catches that, and
  its catch throws again.

## Model

| member | source | states |
|---|---|---|
| Handlers.Initial | frontend/components/App.js:15-18 | first render: message `''`, no articles, no current id, spinner off, the stored token kept, no request made |
| Handlers.RedirectToLogin | frontend/components/App.js:22 | the location becomes `'/'` and nothing else changes |
| Handlers.RedirectToArticles | frontend/components/App.js:23 | the location becomes `'/articles'` and nothing else changes |
| Handlers.Logout | frontend/components/App.js:25-35 | makes no request; the token is removed, the location is `'/'` and the message is exactly `"Goodbye!"`; articles, current id and spinner unchanged |
| Handlers.Login | frontend/components/App.js:37-67 | sends one login request and ends with the spinner off; the articles never change; the token changes only on an ok response. An ok response stores the returned token, shows the server message (or `"Here are your articles, <username>!"` when it is absent or empty), resets the current id and goes to `'/articles'`. A non-ok response leaves the message `''` and the token, location and current id untouched. A rejection shows `'An error occurred. Please try again.'`, with the token untouched |
| Handlers.GetArticles | frontend/components/App.js:70-92 | sends one list request carrying the stored token; spinner off; token and current id unchanged. On success the collection is the server list exactly and the message is the server's. On failure the collection is unchanged and the message is `''`. The location becomes `'/'` exactly on a 401. The handler rejects exactly when there was no response |
| Handlers.PostArticle | frontend/components/App.js:102-133 | sends one create request with the token. On success the length grows by one, every earlier article keeps its position and the returned article is last. Failures are classified as for the list, with the collection unchanged |
| Handlers.UpdateArticle | frontend/components/App.js:135-166 | on success sends the PUT then exactly one list request; the collection equals the refetch result, or is unchanged if the refetch failed; the message is the PUT's, overriding the refetch's, unless the refetch rejected. A 401 goes to `'/'` and leaves the message `''`. Any other failure, including a rejected refetch, shows `"An error occurred while updating the article."`. The token is never touched and the handler never rejects |
| Handlers.DeleteArticle | frontend/components/App.js:168-187 | on success sends the DELETE then exactly one list request; the collection equals the refetch result, or is unchanged; the message is the DELETE's unless the refetch rejected, and is otherwise `''`. It rejects exactly when the DELETE or the refetch got no response. A 401 from either goes to `'/'`. The token is never touched |
| Controller.App.constructor | frontend/components/App.js:15-18 | the object starts in the first-render state |
| Controller.App.RedirectToLogin | frontend/components/App.js:22 | navigates to `'/'`, as the redirect function says |
| Controller.App.RedirectToArticles | frontend/components/App.js:23 | navigates to `'/articles'`, as the redirect function says |
| Controller.App.Send | frontend/components/App.js:38-42 | a remote call is only made with the spinner on and the message cleared, and it appends one entry to the request log |
| Controller.App.Logout | frontend/components/App.js:25-35 | removing the token, redirecting and setting the farewell, in that order, settle in the state `Handlers.Logout` gives |
| Controller.App.Login | frontend/components/App.js:37-67 | the step-by-step handler settles in the state `Handlers.Login` gives |
| Controller.App.GetArticles | frontend/components/App.js:70-92 | the step-by-step handler settles in the state and exit `Handlers.GetArticles` gives |
| Controller.App.PostArticle | frontend/components/App.js:102-133 | the step-by-step handler settles in the state and exit `Handlers.PostArticle` gives |
| Controller.App.UpdateArticle | frontend/components/App.js:135-166 | the handler, with its nested call of `GetArticles` on the same object, settles in the state `Handlers.UpdateArticle` gives |
| Controller.App.DeleteArticle | frontend/components/App.js:168-187 | the handler, with its nested call of `GetArticles` on the same object, settles in the state and exit `Handlers.DeleteArticle` gives |
| Runs.Step | frontend/components/App.js:62-64 | every remote handler settles with the spinner off; logout leaves it as it was |
| Runs.SpinnerAfterRun | frontend/components/App.js:89-91 | after any trace the spinner is on exactly when it was on before and the trace held only logouts |
| Runs.SpinnerOffFromStart | frontend/components/App.js:18 | after any trace run from the first render, the spinner is off |
| Runs.TokenAfterRun | frontend/components/App.js:31-53 | the stored token after a trace is the one written by the last logout (none) or ok login (the returned token), or the earlier one if there was neither |
| Runs.TokenKeptWithoutSessionEvents | frontend/components/App.js:157-161 | a trace without logouts and ok logins leaves the token as it was, whatever the failures, 401s included |
| Runs.RequestsAfterRun | frontend/components/App.js:154-155 | a trace only appends to the request log: no call for a logout, two for a successful update or delete (the call and its one refetch), one for every other action |
| Runs.ArticlesKeptWithoutSuccess | frontend/components/App.js:85-88 | a trace without a successful list, create or refetch leaves the collection as it was |
| Runs.LocationAfterRun | frontend/components/App.js:22-23 | the location after a trace is where the last navigating action went (logout and 401 to `'/'`, ok login to `'/articles'`), or the earlier one if no action navigated |

## Left out

- Rendering and routing (App.js lines 190-232): the JSX, `Routes`, `NavLink` and the opacity styling. Navigation is one location field.
- The network: `fetch`, `axios`, URLs, the `Content-Type` header and JSON encoding. Each call is an outcome parameter, and an entry in the request log.
- Malformed payloads: a response without the `articles`, `article`, `message` or `token` field it should carry (in the source this stores `undefined` or throws inside `try`). Payload fields always hold values of the right type.
- localStorage persistence across restarts: the token is an `Option<string>` field, set by the constructor from what storage already holds.
- `console.log` calls: they change no state.
- Async timing, React's batching of state updates, overlapping handlers and cancellation. Each handler is one atomic, sequential transition. The setters run in source order, so the last write wins, as it does once React applies the queued updates.
- The distinction between an undefined and a null `currentArticleId`: both are `None`.
- `setCurrentArticleId`, which is passed unchanged to the child components: the edit selection is not a handler of App.
- frontend/components/Articles.js: a rendering component; its token guard and list rendering are not part of this model.
- frontend/components/Spinner.test.js: test of a component that is not part of this model.
