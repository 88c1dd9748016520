# Session gatekeeper of the Agency login demo

This project models the one piece of logic in the login demo, `app.py`. It is a
session gatekeeper with two states, Anonymous and Authenticated, sitting over a fixed
credential table. Three modules make up the model:

- `Gate` (gate.dfy) holds the data and one pure function per route handler. A client's
  state is a value here: the session, a `map<string, string>`, plus the list of
  `(message, category)` flashes. The constants come straight from the source: the table
  `admin -> password123` and `user -> userpass`, the session keys `username` and
  `login_time`, the flash texts and categories, and the `N/A` fallback.
- `App` (gatekeeper.dfy) holds the route handlers as methods of a class `Gatekeeper`.
  The class has `session` and `flashes` fields and a `const users` table.
  `Login` and `Logout` update the fields in place. `Home`, `Dashboard` and
  `HealthCheck` only read them. Each method's contract ties its result, and its new
  state, to the `Gate` function of the same name. `AdminScenario` is a client of the
  class that walks through a wrong and then a correct administrator password.
- `Lifecycle` (lifecycle.dfy) runs a sequence of requests from one client through the
  handlers. It compares the result with the abstract two-state machine and proves
  three facts about every trace: the session invariant holds, logout ends the session,
  and the flash list only grows.

Responses carry only their dynamic values. `Redirect(location)` stands for
`redirect(url_for(...))`. The locations are `/login` and `/dashboard`. The HTML bodies
are reduced to `LoginPage`, `Greeting(name)`, `DashboardView(name, loginTime,
serverTime)` and `HealthStatus(status, timestamp)`. The clock is a string parameter
(`now`, `serverTime`) that the caller supplies.

The application never reads its flashes back: no page calls `get_flashed_messages`.
So the flash list is append-only, and the model keeps it that way.

## Model

| member | source | states |
|---|---|---|
| `Gate.Home` | app.py:14-18 | Redirects to `/login` if and only if the session has no `username` key; otherwise greets `session['username']`. |
| `Gate.Dashboard` | app.py:68-96 | Redirects to `/login` if and only if there is no `username` key. Otherwise it shows `session['username']` and the server time. It shows `session['login_time']` when that key is present and `N/A` otherwise. |
| `Gate.Login` | app.py:20-34 | A GET returns the form and changes nothing. A POST redirects to `/dashboard` if and only if the username is in the table and its password equals the submitted one. On success, the session gains exactly the keys `username` (the submitted name) and `login_time` (the given time), every other key keeps its value, and exactly the success flash is appended. On failure, the session is unchanged, exactly the error flash is appended, and the form is returned. |
| `Gate.Logout` | app.py:98-102 | The session is empty whatever it held. The logged-out flash is appended, the response redirects to `/login`, and both `Home` and `Dashboard` then redirect to `/login`. |
| `Gate.HealthCheck` | app.py:104-106 | Always reports status `healthy`, with the given timestamp. |
| `App.Gatekeeper.constructor` | app.py:9-12 | A new client gets the fixed credential table, an empty session (which satisfies the session invariant) and no flashes. |
| `App.Gatekeeper.Home` | app.py:14-18 | Returns what `Gate.Home` gives for the current session. It redirects exactly when `username` is absent, and it cannot change the session. |
| `App.Gatekeeper.Login` | app.py:20-34 | The new session, flash list and response are exactly those of `Gate.Login` on the old state. A POST redirects if and only if the credentials match. A response that is not a redirect leaves the session unchanged. The session invariant is kept. |
| `App.Gatekeeper.Dashboard` | app.py:68-96 | Returns what `Gate.Dashboard` gives for the current session. It redirects exactly when `username` is absent, and it cannot change the session. |
| `App.Gatekeeper.Logout` | app.py:98-102 | The new state and response are those of `Gate.Logout`: an empty session, which satisfies the invariant, and a redirect to `/login`. |
| `App.Gatekeeper.HealthCheck` | app.py:104-106 | Returns `healthy` with the given timestamp and changes nothing. |
| `Lifecycle.StepRefinesPhase` | app.py:16-102 | One request moves the session's phase (Anonymous or Authenticated) exactly as the two-state machine does. A matching login POST leads to Authenticated, a logout leads to Anonymous, and every other request keeps the phase. |
| `Lifecycle.RunRefinesPhase` | app.py:16-102 | Over any sequence of requests, the phase of the final session is the one the two-state machine reaches from the initial phase. |
| `Lifecycle.StepKeepsInvariant` | app.py:26-28 | One request keeps the session invariant: a stored `username` is a key of the table, and `login_time` is present exactly when `username` is. |
| `Lifecycle.RunKeepsInvariant` | app.py:26-28 | Every sequence of requests keeps the session invariant. |
| `Lifecycle.RunAppendsFlashes` | app.py:29-32 | Over any sequence of requests, the old flash list is a prefix of the new one. Exactly one flash is added per login POST and per logout (line 101). |
| `Lifecycle.LogoutEndsAnyTrace` | app.py:98-102 | After any history followed by a logout, the session is empty and both `home` and `dashboard` redirect to `/login`. |
| `Lifecycle.FreshClientDashboard` | app.py:86-91 | A client that starts with no session, after any history, only ever sees a dashboard for a user of the table that shows its recorded login time. The `N/A` fallback of line 91 is never reached. |

## Left out

- The HTML and CSS bodies of the login form, the greeting and the dashboard: each response keeps only its dynamic values.
- Flask routing, `redirect` and `url_for`: the redirect targets are the literal paths `/login` and `/dashboard`.
- Form parsing: a POST without a `username` or `password` field makes Flask answer 400 (`KeyError`, app.py:23-24). The model's POST always carries both fields.
- Flashes live in a separate list, not in a `_flashes` session key. In Flask, `session.clear()` in `logout` also drops flashes that have not been shown yet. The model keeps those earlier flashes and appends the logged-out one.
- Cookie signing and the secret key (app.py:6) are framework cryptography.
- `datetime.now()`, `strftime` and `isoformat`: the caller passes the timestamp as a string, and its format is neither produced nor parsed.
- Environment configuration and process start-up (app.py:108-114).
- Concurrency between requests: every handler call is one sequential step on one client's state.
