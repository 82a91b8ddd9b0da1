# Session, error-handling and launch-routing core of the Rescue Federation mobile client

This project is a Dafny model of the small logical core of a React Native client for a
healthcare service-request platform (patients file requests, admins triage them). The
screens are not modelled. The logic that is modelled:

- **Error normaliser** (`RequestInstance`). A failed axios call becomes exactly one
  `ApiError` code: `UNKNOWN` (cancelled, or a falsy status), `TIMEOUT`, `NETWORK_ERROR`,
  or a status-derived number. Its message is taken from the server body by a fixed
  precedence, else a default chosen by the code. `getErrorMessage` turns any thrown value
  into display text.
- **Request gateway**. The request interceptor attaches `Authorization: Bearer <token>`
  when a truthy token is stored. The response interceptor normalises a failure, emits
  that same `ApiError` on the error bus and rejects with it. `handleAuthSuccess` stores
  the token and the user id.
- **Error bus** (`Bus`). It is a listener `Set` in insertion order, with `subscribe`, the
  unsubscribe closure and `emit`. `emit` calls every listener once, swallows what a
  listener throws and never throws itself.
- **Session hook** (`Auth`). At launch, `checkAuth` restores the session from the secure
  store. A session is valid when it is strictly younger than seven days. On expiry only
  the token and the timestamp are deleted. `logout` deletes all four keys and resets the
  state, and it swallows any error.
- **Launch routing** (`Launch`). The launch screen picks a redirect from
  `(isLoading, isAuthenticated, userTypeSaved)`.

State that the source updates in place is modelled as classes:

- the secure store and AsyncStorage are `Storage.KeyValueStore`, holding a
  `map<string, string>`;
- the hook's five `useState` cells are the fields of `Auth.AuthHook`;
- the error bus is `Bus.ErrorBus`, whose `listeners` field is a `seq` without repeats;
- the request config whose headers the interceptor edits is `RequestInstance.RequestConfig`.

Each method that changes state is proved equal to a pure function of the old state
(`CheckAuthStep`, `LogoutStep`, `Added`, `Removed`). The promised properties
are proved about those functions.

Parameters stand for what the model cannot see:

- `now` is the clock;
- `parse` is `new Date(text).getTime()`, where `None` means NaN;
- `failing` is the set of keys whose `deleteItemAsync` rejects;
- `throwing` is the set of listeners that throw when called.

Some JavaScript details are modelled explicitly:

- A stored string counts as present only when it is non-empty. This is JavaScript
  truthiness.
- `extractServerMessage` can return an object rather than a string. This happens when the
  first element of an `errors` array has no truthy `message`, or when the first value of
  an `errors` object is any object, with or without a `message`. For arrays, because the
  first `errors[0]?.message` test fails, the `typeof errors === "object"` branch then
  applies to arrays too. The resulting `ApiError` message is then
  `"[object Object]"`, which is what `Error` makes of an object (`Extracted.ObjectValue`,
  `MessageOr`).
- If a delete rejects inside `checkAuth`'s expiry cleanup, the async function aborts. Its
  final `setIsLoading(false)` is skipped, so the launch screen keeps rendering nothing
  (`Launch.FailedCleanupRendersNothing`).
- The session the hook restores is the one the sign-in screen stores after a successful
  login (app/(auth)/login.tsx, lines 220-223). It writes token, ISO timestamp, role and
  profile JSON, in that order. `Auth.LoggedIn` is that store, and the round-trip lemmas
  start from it. The sign-in screen itself is not part of this model.
- The request interceptor reads the AsyncStorage key `"token"`, which `handleAuthSuccess`
  writes. The session hook reads the secure-store key `"auth_token"`, which the sign-in
  screen writes. The two are separate stores and the model keeps them separate.

Three behaviours of the code that are easy to misread:

- The "returning user" flag needs both a token and a timestamp; a timestamp alone does
  not set it (hooks/useAuth.ts:38-42).
- `logout` does not delete unconditionally. The first rejected delete skips the remaining
  deletes and all in-memory resets (hooks/useAuth.ts:14-24).
- The array branch of the message lookup takes `errors[0].message`. When that is falsy it
  falls through to the first value of `errors`, for arrays too (hooks/requestInstance.ts:79-81).

## Model

| member | source | states |
|---|---|---|
| `RequestInstance.FirstValue` | hooks/requestInstance.ts:80-81 | the first value of `errors`, when truthy: a result exists exactly when the first entry is an object or a non-empty string; a text result is that first entry's string, an object result comes from an object entry; none for no entries |
| `RequestInstance.ExtractServerMessage` | hooks/requestInstance.ts:73-84 | falsy body gives none; string body returned unchanged; `message` wins, then `error`; no truthy field and no `errors` gives none; a returned string is never empty; defined whenever `errors` is not `null` at the point it is inspected |
| `RequestInstance.FirstPresentAppend` | hooks/requestInstance.ts:76-83 | an `||` chain split in two is decided by its first half unless that half is all falsy |
| `RequestInstance.FirstPresent` | hooks/requestInstance.ts:76-83 | the value of a JavaScript or-chain: none exactly when every candidate is falsy, otherwise the first present candidate, all earlier ones being falsy |
| `RequestInstance.ExtractIsFirstCandidate` | hooks/requestInstance.ts:76-83 | the server message is the first truthy of `message`, `error`, `errors[0].message`, first value of `errors`, in that order |
| `RequestInstance.MessageOr` | hooks/requestInstance.ts:109-110 | the server message or else the default: the default when nothing was extracted, the extracted string otherwise, and "[object Object]" when the extracted value is an object |
| `RequestInstance.NormalizeAxiosError` | hooks/requestInstance.ts:86-137 | cancellation gives `UNKNOWN` "Request cancelled"; otherwise `ECONNABORTED` gives `TIMEOUT`; otherwise no response gives `NETWORK_ERROR`; 400 and 422 give code 400 keeping the original status; other non-zero statuses give code = status; status 0 gives `UNKNOWN`; a response-bearing error carries the status and raw body, and its message is the server message or the default for its code; the message is never empty |
| `RequestInstance.NotFoundExample` | hooks/requestInstance.ts:115-121 | a 404 with body `{message: "not found"}` gives code 404, message "not found" |
| `RequestInstance.GetErrorMessage` | hooks/requestInstance.ts:150-158 | an `ApiError`'s message; else a truthy `message` of an object; else the fallback, which defaults to "Something went wrong. Please try again." |
| `RequestInstance.DefaultFallbackShown` | hooks/requestInstance.ts:150-158 | a call without a fallback, as every screen makes, shows "Something went wrong. Please try again." for anything that is neither an `ApiError` nor an object with a truthy `message` |
| `RequestInstance.RejectionMessageShown` | hooks/requestInstance.ts:150-154 | a screen catching the gateway's rejection displays the normalised message, which is non-empty |
| `RequestInstance.BearerToken` | hooks/requestInstance.ts:43-44 | a token is attached exactly when the stored `token` is present and non-empty |
| `RequestInstance.AttachToken` | hooks/requestInstance.ts:41-50 | sets `Authorization` to `"Bearer " + token` when a truthy token is stored, otherwise headers unchanged; returns the same config |
| `RequestInstance.HandleAuthSuccess` | hooks/requestInstance.ts:161-166 | stores `token` then `userId`, returns the response unchanged; the interceptor then attaches that token when it is non-empty |
| `RequestInstance.HandleResponse` | hooks/requestInstance.ts:139-146 | a response passes through with nothing emitted; a failure rejects with the normalised error and every listener receives that same error, in order, each registered listener exactly once and no other listener |
| `Bus.Added` | hooks/errorBus.ts:7 | adding keeps earlier listeners in place, contains the new one, keeps the set free of repeats, and adds nothing if already present |
| `Bus.Removed` | hooks/errorBus.ts:9 | deleting removes exactly that listener and keeps all others, never growing the set |
| `Bus.RemovedAt` | hooks/errorBus.ts:8-10 | deleting the listener at position k leaves the listeners before and after it in their insertion order |
| `Bus.RemovedDistinct` | hooks/errorBus.ts:4-9 | deleting keeps the set free of repeats |
| `Bus.RemovedAbsent` | hooks/errorBus.ts:8-10 | deleting an unregistered listener changes nothing |
| `Bus.UnsubscribeTwice` | hooks/errorBus.ts:8-10 | calling the unsubscribe closure again is a no-op |
| `Bus.RemovedAppend` | hooks/errorBus.ts:7-9 | deleting the most recently added listener restores the earlier sequence |
| `Bus.SubscribeThenUnsubscribe` | hooks/errorBus.ts:6-10 | subscribe of a new listener followed by its unsubscribe restores the listener set exactly |
| `Bus.SubscribeTwice` | hooks/errorBus.ts:4-7 | subscribing the same listener twice leaves exactly one entry |
| `Bus.EachListenerOnce` | hooks/errorBus.ts:13-19 | emitting over a repeat-free set calls each registered listener exactly once and no other |
| `Bus.ErrorBus.constructor` | hooks/errorBus.ts:4 | the bus starts with no listeners |
| `Bus.ErrorBus.Subscribe` | hooks/errorBus.ts:6-11 | adds the listener once and returns its unsubscribe closure |
| `Bus.ErrorBus.Unsubscribe` | hooks/errorBus.ts:8-10 | removes exactly the subscribed listener |
| `Bus.ErrorBus.Emit` | hooks/errorBus.ts:13-19 | one call per listener in insertion order, all with the same error, throwing listeners included, so each registered listener is called exactly once and no other listener is called; `emit` itself has no failure outcome and leaves the listeners unchanged |
| `Auth.FirstFailure` | hooks/useAuth.ts:15-18 | the position of the first rejected delete: every earlier key succeeds, the one there fails |
| `Auth.DeleteInOrder` | hooks/useAuth.ts:14-24 | awaited deletes in order, stopping at the first rejection; never adds a key or changes a kept value |
| `Auth.DeleteInOrderSpec` | hooks/useAuth.ts:14-24 | sequential awaited deletes complete iff none rejects; keys before the first rejection are gone, all other entries kept |
| `Auth.DeleteAllSucceed` | hooks/useAuth.ts:15-18 | with no rejection exactly the given keys are removed |
| `Auth.FreshWithinWeek` | hooks/useAuth.ts:39-44 | `daysSinceLogin < 7` is exactly `now - lastLogin < 7 * 86400000` milliseconds |
| `Auth.CheckAuthStep` | hooks/useAuth.ts:28-59 | the effect of `checkAuth` on cells and store; `returnUser` set iff token and timestamp present; a profile shown iff one is stored (or was already); the store untouched unless the session expired |
| `Auth.CheckAuthSpec` | hooks/useAuth.ts:28-59 | profile set whenever stored; `returnUser` iff token and timestamp present; authenticated iff the session is under seven days old; valid session keeps the stored type (or ""); expiry deletes only token and timestamp and gives ""; missing token or timestamp gives "" and an untouched store; `isLoading` false on every completed path |
| `Auth.LogoutStep` | hooks/useAuth.ts:13-25 | the effect of `logout`: the cells end either fully reset or untouched, and the store only loses keys |
| `Auth.LogoutSpec` | hooks/useAuth.ts:13-25 | with no rejection all four keys are gone and the cells reset; on a rejection the cells are untouched, earlier keys deleted, later keys kept; other keys and `isLoading` never change |
| `Auth.AuthHook.constructor` | hooks/useAuth.ts:6-10 | the cells start loading, unauthenticated, with "" type, no returning user and no profile |
| `Auth.AuthHook.CheckAuth` | hooks/useAuth.ts:28-59 | the cells and the store end as `CheckAuthStep` of the old ones |
| `Auth.AuthHook.Logout` | hooks/useAuth.ts:13-25 | the cells and the store end as `LogoutStep` of the old ones; no failure reaches the caller |
| `Storage.KeyValueStore.GetItem` | hooks/useAuth.ts:29-32 | `getItemAsync` resolves to the stored string, or null when the key is absent |
| `Storage.KeyValueStore.SetItem` | hooks/requestInstance.ts:163-164 | `setItem` overwrites exactly one key |
| `Storage.KeyValueStore.DeleteItem` | hooks/useAuth.ts:15-18 | `deleteItemAsync` removes exactly one key and succeeds, or rejects and leaves the store as it was |
| `Auth.LoggedIn` | hooks/useAuth.ts:29-32 | a stored login: the four keys `checkAuth` reads hold token, timestamp, role and profile; other keys unchanged |
| `Auth.ValidLoginRestores` | hooks/useAuth.ts:38-46 | a stored login checked within seven days restores the same role and profile, authenticated |
| `Auth.ExpiredLoginKeepsProfile` | hooks/useAuth.ts:47-52 | checked after seven days: unauthenticated, returning user, token and timestamp deleted, role and profile still stored |
| `Auth.RelaunchAfterExpiry` | hooks/useAuth.ts:38-56 | after an expiry cleanup the next launch has no session and no returning user |
| `Auth.RelaunchAfterLogout` | hooks/useAuth.ts:15-22 | after a completed logout the next launch is signed out with no profile |
| `Launch.Index` | app/index.tsx:10-28 | nothing while loading; `/(auth)` when unauthenticated or type empty; customer to the appointment route; admin to the admin dashboard; any other type to `/(auth)`; the outcomes partition the inputs |
| `Launch.Route` | app/index.tsx:6-10 | the redirect for the hook's state; none exactly while it is loading |
| `Launch.NothingBeforeCheck` | app/index.tsx:10 | before the launch check runs nothing is rendered |
| `Launch.FreshLoginLandsHome` | app/index.tsx:17-23 | a launch within seven days of a login stored as "customer" or "admin" lands on that role's home route |
| `Launch.NoValidSessionLandsOnAuth` | app/index.tsx:12-15 | a completed launch without a valid session redirects to `/(auth)` |
| `Launch.FailedCleanupRendersNothing` | app/index.tsx:10 | a rejected expiry cleanup leaves the launch screen rendering nothing |

## Left out

- The HTTP calls `registerCustomer`, `registerAdmin`, `loginCustomer`, `loginAdmin`, `createRequest`, `getUserRequests`, `getFilteredRequests` and `updateRequestStatus`. They are pass-through network I/O with no logic beyond `handleAuthSuccess`, which is modelled.
- The request interceptor's error handler only re-rejects the same error, so it is not modelled.
- `isApiError` is an `instanceof` test. It is the `ThrownApiError?` discriminator.
- Storage reads are modelled as never failing. Only deletes can reject.
- `JSON.parse` of the stored profile is not modelled. The profile is kept as its stored text.
- A malformed profile, which would make `checkAuth` throw, is not modelled.
- `new Date(...)` parsing is the parameter `parse`. An unparsable timestamp is `None` (NaN) and takes the expired branch.
- Floating-point rounding of `daysSinceLogin` is not modelled. The comparison is done over reals, and `FreshWithinWeek` shows it equals the integer millisecond test.
- `RequestInstance.ExtractServerMessage`: `errors === null` makes `Object.values(null)` throw. That input is excluded by the precondition `Extractable`, not modelled as an exception.
- `RequestInstance.ExtractServerMessage`: `message` and `error` are modelled as strings. A non-string truthy `message`/`error` and a non-string non-object response body are not modelled.
- `RequestInstance.GetErrorMessage`: a thrown non-`ApiError` object's `message` is modelled as an optional string (`ThrownObject`). A non-string truthy `message`, such as `42`, which `getErrorMessage` would return as is, is not modelled.
- `RequestInstance.FirstValue`: an entry of `errors` (array element or object value) is null/undefined, a string or a plain object. Array entries (`errors: [["x"]]`, which `String` renders as "x"), numbers (`errors: [0]`) and booleans are not modelled.
- React's asynchronous state updates, re-renders, and several hook instances re-deriving the session independently are not modelled. The model treats each `set...` call as an immediate field write.
- Concurrency is not modelled: interleaved launches, races between refreshes, and listeners that subscribe or unsubscribe while `emit` runs.
- Listener identity is a number, and listener bodies are not modelled. Whether a listener throws is the parameter `throwing`.
- The app layout, fonts, theme, toasts, navigation bar, Metro/Tailwind configuration and constants/API.ts are not modelled. They are configuration and presentation.
- Date and time validation, service-type mapping and admin accept/complete transitions are not modelled. They live in the screen files, which are not part of this model.
