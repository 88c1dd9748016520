/** The session gatekeeper of the login demo, as pure functions over values.

    A client's state is its session (a map from string keys to string
    values, as the web framework keeps it) and the list of flash messages
    recorded for it. Each route handler is a function from the state before
    the request to the state after it and the response. The clock is not
    modelled: the caller passes the current timestamp as a string.
 */
module Gate {

  type Session = map<string, string>

  /** A flash message and its category. */
  datatype Flash = Flash(message: string, category: string)

  /** What one client carries between requests. */
  datatype State = State(session: Session, flashes: seq<Flash>)

  /** The responses of the routes, reduced to their dynamic values. */
  datatype Response =
    | Redirect(location: string)
    | LoginPage
    | Greeting(name: string)
    | DashboardView(name: string, loginTime: string, serverTime: string)
    | HealthStatus(status: string, timestamp: string)

  /** The method of a request to the login route, with the submitted form on POST. */
  datatype HttpMethod = Get | Post(username: string, password: string)

  /** The state after a handler and the response it returns. */
  datatype Outcome = Outcome(state: State, response: Response)

  /** The fixed credential table: username to plaintext password. */
  const USERS: map<string, string> := map["admin" := "password123", "user" := "userpass"]

  const USERNAME_KEY := "username"
  const LOGIN_TIME_KEY := "login_time"

  const LOGIN_PATH := "/login"
  const DASHBOARD_PATH := "/dashboard"

  /** Shown on the dashboard when the session has no login time. */
  const NOT_AVAILABLE := "N/A"
  const HEALTHY := "healthy"

  const LOGIN_SUCCESSFUL := Flash("Login successful!", "success")
  const LOGIN_FAILED := Flash("Invalid username or password", "error")
  const LOGGED_OUT := Flash("You have been logged out.", "success")

  /** A session is authenticated exactly when it holds a username. */
  predicate IsAuthenticated(s: Session) {
    USERNAME_KEY in s
  }

  /** Exact lookup and plaintext string equality, no hashing. */
  predicate CredentialsMatch(users: map<string, string>, username: string, password: string) {
    username in users && users[username] == password
  }

  /** A signed-in session names a user of the table, and it holds a login
      time exactly when it holds a username. */
  predicate SessionInvariant(users: map<string, string>, s: Session) {
    && (USERNAME_KEY in s ==> s[USERNAME_KEY] in users)
    && (USERNAME_KEY in s <==> LOGIN_TIME_KEY in s)
  }

  /** The greeting route: the user's name when signed in, else off to the login form. */
  function Home(s: Session): (r: Response)
    ensures r == Redirect(LOGIN_PATH) <==> !IsAuthenticated(s)
    ensures IsAuthenticated(s) ==> r == Greeting(s[USERNAME_KEY])
  {
    if USERNAME_KEY in s then Greeting(s[USERNAME_KEY]) else Redirect(LOGIN_PATH)
  }

  /** The protected dashboard: it shows the username and the login time,
      falling back to N/A when the session has no login time. */
  function Dashboard(s: Session, serverTime: string): (r: Response)
    ensures r == Redirect(LOGIN_PATH) <==> !IsAuthenticated(s)
    ensures IsAuthenticated(s) ==>
      r.DashboardView? && r.name == s[USERNAME_KEY] && r.serverTime == serverTime
    ensures IsAuthenticated(s) && LOGIN_TIME_KEY in s ==> r.loginTime == s[LOGIN_TIME_KEY]
    ensures IsAuthenticated(s) && LOGIN_TIME_KEY !in s ==> r.loginTime == NOT_AVAILABLE
  {
    if USERNAME_KEY !in s then
      Redirect(LOGIN_PATH)
    else
      var loginTime := if LOGIN_TIME_KEY in s then s[LOGIN_TIME_KEY] else NOT_AVAILABLE;
      DashboardView(s[USERNAME_KEY], loginTime, serverTime)
  }

  /** The login route. A GET only shows the form. A POST whose pair matches
      the table records the username and the login time in the session,
      adds a success flash and redirects to the dashboard; any other POST
      keeps the session, adds an error flash and shows the form again. */
  function Login(users: map<string, string>, st: State, m: HttpMethod, now: string): (o: Outcome)
    ensures m.Get? ==> o == Outcome(st, LoginPage)
    ensures m.Post? ==>
      (o.response == Redirect(DASHBOARD_PATH) <==> CredentialsMatch(users, m.username, m.password))
    ensures m.Post? && CredentialsMatch(users, m.username, m.password) ==>
      && o.state.session.Keys == st.session.Keys + {USERNAME_KEY, LOGIN_TIME_KEY}
      && o.state.session[USERNAME_KEY] == m.username
      && o.state.session[LOGIN_TIME_KEY] == now
      && (forall k :: k in st.session && k != USERNAME_KEY && k != LOGIN_TIME_KEY ==>
            o.state.session[k] == st.session[k])
      && o.state.flashes == st.flashes + [LOGIN_SUCCESSFUL]
    ensures m.Post? && !CredentialsMatch(users, m.username, m.password) ==>
      o == Outcome(State(st.session, st.flashes + [LOGIN_FAILED]), LoginPage)
  {
    match m
    case Get => Outcome(st, LoginPage)
    case Post(username, password) =>
      if username in users && users[username] == password then
        var session := st.session[USERNAME_KEY := username][LOGIN_TIME_KEY := now];
        Outcome(State(session, st.flashes + [LOGIN_SUCCESSFUL]), Redirect(DASHBOARD_PATH))
      else
        Outcome(State(st.session, st.flashes + [LOGIN_FAILED]), LoginPage)
  }

  /** The logout route: the session is emptied whatever it held, a flash is
      added, and both gates send the client to the login form afterwards. */
  function Logout(st: State): (o: Outcome)
    ensures o.state.session == map[]
    ensures o.state.flashes == st.flashes + [LOGGED_OUT]
    ensures o.response == Redirect(LOGIN_PATH)
    ensures Home(o.state.session) == Redirect(LOGIN_PATH)
    ensures forall now :: Dashboard(o.state.session, now) == Redirect(LOGIN_PATH)
  {
    Outcome(State(map[], st.flashes + [LOGGED_OUT]), Redirect(LOGIN_PATH))
  }

  /** The health route: always healthy, stamped with the given time. */
  function HealthCheck(now: string): (r: Response)
    ensures r.HealthStatus? && r.status == HEALTHY && r.timestamp == now
  {
    HealthStatus(HEALTHY, now)
  }
}
