# Session client of the React Native auth app, in Dafny

This project models the single `App` component of a React Native client
(`app/index.tsx`). It signs a user in and out and keeps the user's profile,
using a remote HTTP API and a bearer token that it persists in device
storage under the key `'token'`. The model covers:

- the component's state (`isLoggedIn`, `token`, `activeTab`, `profileTab`,
  the three forms, `userInfo`) plus the persisted token entry;
- the six handlers `checkToken`, `fetchUserInfo`, `handleLogin`,
  `handleRegister`, `handleUpdate` and `handleLogout`, including their
  input guards, the requests they send, the state they change and the
  alerts they raise;
- which handler buttons and inputs the view renders for the current state.

Module layout:

- `Types` (types.dfy) holds the state, the forms, and the abstract server
  reply `Response<T> = Ok(payload) | NotOk(message) | Exception`, which
  stands in for `fetch` plus `res.json()`. It also holds the requests
  issued and the alerts raised.
- `Handlers` (handlers.dfy) gives each handler as a function from the state
  before it runs, and the replies it receives, to a `Step`: the state
  after, the requests sent in order, and the alerts raised in order. The
  contracts state the guards, the effects and what is left untouched.
- `Component` (component.dfy) is the component as a `class App`. Its fields
  are the `useState` variables plus `storage`, the persisted token. Its
  methods update the fields one setter at a time, as the handlers do. Each
  method is proved to leave exactly the state, requests and alerts that the
  matching `Handlers` function gives.
- `Screen` (screen.dfy) models the screen. `isLoggedIn` picks the
  logged-out view or the profile view, and the tab selectors pick the form
  inside each view, so a handler runs only when its button is shown. A
  session is the mount effect (`checkToken`) followed by any sequence of
  user events. Its lemmas show two things for every reachable state:
  - the in-memory token, when present, equals the persisted one, and a
    truthy persisted token is also held in memory;
  - a logged-in component always holds a token.
  They also show that every request sent passed its handler's form
  validation. So the update and logout calls never go out as
  `Bearer null`.

Behaviour of the code worth knowing:

- A successful login does not set `isLoggedIn` itself. Only a successful
  profile fetch does, and `handleLogin` reports success even when that
  fetch is rejected or fails.
- A rejected profile fetch leaves `isLoggedIn` as it was. It does not set
  it to false.
- A profile fetch that throws raises an alert, also during the startup
  token check. A rejected one raises none.
- A stored token that is the empty string counts as absent (`if
  (storedToken)`), so no request is made for it.

## Model

| member | source | states |
|---|---|---|
| Handlers.FetchUserInfo | app/index.tsx:56-79 | Issues exactly one GET /user with the given token. A 2xx reply replaces `userInfo`, seeds the update form with its name and email and blank passwords, and sets `isLoggedIn`. A non-2xx reply clears both the in-memory and the stored token and leaves `isLoggedIn` as it was, with no alert. An exception changes nothing and only alerts. The tabs and the other forms are never touched. |
| Handlers.CheckToken | app/index.tsx:44-54 | With a falsy stored token (none or `''`) nothing is sent and nothing changes. Otherwise one profile fetch is made with the stored token. If accepted, the user is logged in with that token and its profile. If rejected, both tokens are cleared and nothing else changes, with no alert. If it throws, only the in-memory token is set. |
| Handlers.Login | app/index.tsx:81-109 | Sends a request if and only if both login fields are non-empty. If a field is empty, a validation alert is raised and the state is unchanged. A 2xx reply sends exactly [POST /login, GET /user with the returned token]. The result is the profile fetch run on the state with both tokens set to that token. The alerts are exactly that fetch's alerts followed by the success alert. A non-2xx reply alerts with the server message or "Login failed". An exception raises a connection alert. Neither changes the state. |
| Handlers.Register | app/index.tsx:111-146 | Sends a request if and only if all four fields are non-empty and the password equals its confirmation. The empty-field alert has priority over the mismatch alert. A 2xx reply empties the register form and selects the login tab, and nothing else changes. In particular the tokens, `isLoggedIn` and storage stay as they were. A non-2xx reply or an exception alerts and changes nothing. |
| Handlers.Update | app/index.tsx:148-175 | Refuses, with no request, if and only if the new password is non-empty and differs from its confirmation. An empty password skips the check. Otherwise it sends one PUT with the current token and the whole form. A 2xx reply replaces only `userInfo`. A failure alerts and changes nothing. |
| Handlers.Logout | app/index.tsx:177-191 | Whatever the server does, it ends with no token in memory or storage and `isLoggedIn` false, with everything else unchanged. It sends one POST /logout with the old token and always raises the success alert. |
| Component.App.constructor | app/index.tsx:20-38 | Every state variable starts at its `useState` initial value, and the storage holds what was persisted. |
| Component.App.FetchUserInfo | app/index.tsx:56-79 | The in-place updates have exactly the effect of `Handlers.FetchUserInfo` on the state, requests and alerts. |
| Component.App.CheckToken | app/index.tsx:44-54 | The in-place updates, including the nested profile fetch, have exactly the effect of `Handlers.CheckToken`. |
| Component.App.HandleLogin | app/index.tsx:81-109 | Early return on an empty field. The setters and the nested profile fetch have exactly the effect of `Handlers.Login`. |
| Component.App.HandleRegister | app/index.tsx:111-146 | Two early returns, then the setters, with exactly the effect of `Handlers.Register`. |
| Component.App.HandleUpdate | app/index.tsx:148-175 | Early return on a mismatched new password, then the setters, with exactly the effect of `Handlers.Update`. |
| Component.App.HandleLogout | app/index.tsx:177-191 | The unconditional clearing of the two tokens and the flag has exactly the effect of `Handlers.Logout`. |
| Screen.Dispatch | app/index.tsx:193-419 | One user event on the rendered view. It keeps the two-token agreement (a token in memory is the stored one, and a truthy stored token is held in memory) and "logged in implies a token". Every request it sends is guarded. It reaches the logged-in state from a logged-out one only by a press of the rendered login button, with both fields filled, whose credentials reply and profile reply are both 2xx. |
| Screen.Mount | app/index.tsx:40-54 | The startup token check. There is no request and the state is the initial one when nothing is stored. An accepted stored token logs the user in with that token and the returned profile. A rejected one leaves the user logged out with both tokens cleared and no alert. A fetch that throws leaves the user logged out with the stored token in memory, and raises one alert. |
| Screen.RunKeepsReconciled | app/index.tsx:44-191 | Any sequence of events from a reconciled state keeps it reconciled and sends only guarded requests. Proved by induction on the events. |
| Screen.SessionIsReconciled | app/index.tsx:40-419 | Every session (mount, then any events) ends reconciled and has sent only guarded requests. In particular no update or logout request goes out without a token. |
| Screen.LoginNeedsProfileFetch | app/index.tsx:61-70 | A logged-out component that ends logged in after any events went through a press of the rendered login button, with both fields filled in the state it was pressed in, whose credentials reply and profile reply were both 2xx. |

## Left out

- Rendering, styling and exact alert wording: the JSX (app/index.tsx:193-419) is modelled only as far as it decides which inputs and buttons are on screen. The `StyleSheet` is left out, and alert texts are an `Alert` value, except for the fallback messages of rejected requests.
- Network and JSON: `fetch`, headers, request bodies and `JSON.stringify` are replaced by the `Request` values and `Response` replies. A `res.json()` that throws is the `Exception` reply.
- The reply payloads are taken to be well-formed. A login reply without a string `token`, or an update reply without `user`, is not modelled. `userInfo` keeps only the `name` and `email` of the profile reply, not any other fields.
- Storage: `AsyncStorage` is one optional-string field, and its calls never fail. The `catch` in `checkToken` only catches storage errors, so it has nothing left to catch.
- `API_URL` and `Constants.expoConfig` come from outside the component. The connection alerts do not carry the URL.
- `console.log` and `console.error` have no effect on state.
- `async`/`await` interleaving and React's batched state updates: each handler runs to completion before the next event, and a setter takes effect at once.
- `activeTab` and `profileTab` are strings in the source. They are two-valued enumerations here because the source only stores those two values.
