/** The route handlers as methods on one client's state. The session and
    the flash list are fields that the login and logout handlers update in
    place; the credential table is a constant no handler can change. Each
    method is specified by the function of the same name in Gate.
 */
module App {
  import opened Gate

  class Gatekeeper {
    const users: map<string, string>
    var session: Session
    var flashes: seq<Flash>

    /** The client's state as a value. */
    function Snapshot(): State
      reads this
    {
      State(session, flashes)
    }

    /** A new client: the fixed credential table, no session, no flashes. */
    constructor ()
      ensures users == USERS
      ensures session == map[] && flashes == []
      ensures SessionInvariant(users, session)
    {
      users := USERS;
      session := map[];
      flashes := [];
    }

    method Home() returns (r: Response)
      ensures r == Gate.Home(session)
      ensures r.Redirect? <==> USERNAME_KEY !in session
    {
      if USERNAME_KEY in session {
        r := Greeting(session[USERNAME_KEY]);
      } else {
        r := Redirect(LOGIN_PATH);
      }
    }

    method Login(m: HttpMethod, now: string) returns (r: Response)
      modifies this
      ensures Outcome(Snapshot(), r) == Gate.Login(users, old(Snapshot()), m, now)
      ensures m.Post? ==> (r.Redirect? <==> CredentialsMatch(users, m.username, m.password))
      ensures !r.Redirect? ==> session == old(session)
      ensures SessionInvariant(users, old(session)) ==> SessionInvariant(users, session)
    {
      if m.Post? {
        if m.username in users && users[m.username] == m.password {
          session := session[USERNAME_KEY := m.username];
          session := session[LOGIN_TIME_KEY := now];
          flashes := flashes + [LOGIN_SUCCESSFUL];
          r := Redirect(DASHBOARD_PATH);
          return;
        } else {
          flashes := flashes + [LOGIN_FAILED];
        }
      }
      r := LoginPage;
    }

    method Dashboard(serverTime: string) returns (r: Response)
      ensures r == Gate.Dashboard(session, serverTime)
      ensures r.Redirect? <==> USERNAME_KEY !in session
    {
      if USERNAME_KEY !in session {
        r := Redirect(LOGIN_PATH);
        return;
      }
      var loginTime := NOT_AVAILABLE;
      if LOGIN_TIME_KEY in session {
        loginTime := session[LOGIN_TIME_KEY];
      }
      r := DashboardView(session[USERNAME_KEY], loginTime, serverTime);
    }

    method Logout() returns (r: Response)
      modifies this
      ensures Outcome(Snapshot(), r) == Gate.Logout(old(Snapshot()))
      ensures session == map[] && r == Redirect(LOGIN_PATH)
      ensures SessionInvariant(users, session)
    {
      session := map[];
      flashes := flashes + [LOGGED_OUT];
      r := Redirect(LOGIN_PATH);
    }

    method HealthCheck(now: string) returns (r: Response)
      ensures r == Gate.HealthCheck(now)
      ensures r == HealthStatus(HEALTHY, now)
    {
      r := HealthStatus(HEALTHY, now);
    }
  }

  /** A client that only uses the methods' contracts: the two scenarios of
      a correct and a wrong password for the administrator account. */
  method AdminScenario(t0: string, t1: string, t2: string)
  {
    var g := new Gatekeeper();
    var r := g.Dashboard(t0);
    assert r == Redirect(LOGIN_PATH);

    r := g.Login(Post("admin", "wrong"), t0);
    assert r == LoginPage && g.session == map[];
    assert g.flashes == [LOGIN_FAILED];

    r := g.Login(Post("admin", "password123"), t1);
    assert r == Redirect(DASHBOARD_PATH);
    assert g.session[USERNAME_KEY] == "admin" && g.session[LOGIN_TIME_KEY] == t1;

    r := g.Dashboard(t2);
    assert r == DashboardView("admin", t1, t2);

    r := g.Logout();
    r := g.Home();
    assert r == Redirect(LOGIN_PATH);
    assert g.flashes == [LOGIN_FAILED, LOGIN_SUCCESSFUL, LOGGED_OUT];
  }
}
