/** The session lifecycle over a sequence of requests from one client.

    Step dispatches one request to its route handler; Run applies a
    sequence of requests in order. The lemmas compare Run with the
    two-state machine Anonymous/Authenticated, show that the session
    invariant of the credential table survives every trace, and that the
    flash list only grows, by exactly one message per login POST and logout.
 */
module Lifecycle {
  import opened Gate

  /** A request to one of the five routes, with the timestamp the handler would read from the clock. */
  datatype Request =
    | HomeRequest
    | LoginRequest(m: HttpMethod, now: string)
    | DashboardRequest(now: string)
    | LogoutRequest
    | HealthRequest(now: string)

  function Step(users: map<string, string>, st: State, q: Request): Outcome {
    match q
    case HomeRequest => Outcome(st, Home(st.session))
    case LoginRequest(m, now) => Login(users, st, m, now)
    case DashboardRequest(now) => Outcome(st, Dashboard(st.session, now))
    case LogoutRequest => Logout(st)
    case HealthRequest(now) => Outcome(st, HealthCheck(now))
  }

  function Run(users: map<string, string>, st: State, qs: seq<Request>): State
    decreases |qs|
  {
    if qs == [] then st else Run(users, Step(users, st, qs[0]).state, qs[1..])
  }

  /** The two states of the gatekeeper. */
  datatype Phase = Anonymous | Authenticated

  function PhaseOf(s: Session): Phase {
    if IsAuthenticated(s) then Authenticated else Anonymous
  }

  /** The abstract machine: a matching login POST leads to Authenticated,
      logout to Anonymous, and every other request keeps the phase. */
  function Transition(users: map<string, string>, p: Phase, q: Request): Phase {
    match q
    case LoginRequest(Post(username, password), _) =>
      if CredentialsMatch(users, username, password) then Authenticated else p
    case LogoutRequest => Anonymous
    case _ => p
  }

  function Trace(users: map<string, string>, p: Phase, qs: seq<Request>): Phase
    decreases |qs|
  {
    if qs == [] then p else Trace(users, Transition(users, p, qs[0]), qs[1..])
  }

  /** The requests that add a flash: every login POST and every logout. */
  function FlashingRequests(qs: seq<Request>): nat
    decreases |qs|
  {
    if qs == [] then 0
    else (if qs[0].LogoutRequest? || (qs[0].LoginRequest? && qs[0].m.Post?) then 1 else 0)
         + FlashingRequests(qs[1..])
  }

  lemma StepRefinesPhase(users: map<string, string>, st: State, q: Request)
    ensures PhaseOf(Step(users, st, q).state.session) == Transition(users, PhaseOf(st.session), q)
  {
  }

  lemma {:induction false} RunRefinesPhase(users: map<string, string>, st: State, qs: seq<Request>)
    ensures PhaseOf(Run(users, st, qs).session) == Trace(users, PhaseOf(st.session), qs)
    decreases |qs|
  {
    if qs != [] {
      StepRefinesPhase(users, st, qs[0]);
      RunRefinesPhase(users, Step(users, st, qs[0]).state, qs[1..]);
    }
  }

  lemma StepKeepsInvariant(users: map<string, string>, st: State, q: Request)
    requires SessionInvariant(users, st.session)
    ensures SessionInvariant(users, Step(users, st, q).state.session)
  {
  }

  lemma {:induction false} RunKeepsInvariant(users: map<string, string>, st: State, qs: seq<Request>)
    requires SessionInvariant(users, st.session)
    ensures SessionInvariant(users, Run(users, st, qs).session)
    decreases |qs|
  {
    if qs != [] {
      StepKeepsInvariant(users, st, qs[0]);
      RunKeepsInvariant(users, Step(users, st, qs[0]).state, qs[1..]);
    }
  }

  lemma {:induction false} RunAppendsFlashes(users: map<string, string>, st: State, qs: seq<Request>)
    ensures st.flashes <= Run(users, st, qs).flashes
    ensures |Run(users, st, qs).flashes| == |st.flashes| + FlashingRequests(qs)
    decreases |qs|
  {
    if qs != [] {
      var next := Step(users, st, qs[0]).state;
      RunAppendsFlashes(users, next, qs[1..]);
      assert st.flashes <= next.flashes;
    }
  }

  lemma {:induction false} RunSnoc(users: map<string, string>, st: State, qs: seq<Request>, q: Request)
    ensures Run(users, st, qs + [q]) == Step(users, Run(users, st, qs), q).state
    decreases |qs|
  {
    if qs == [] {
      assert [q][1..] == [];
    } else {
      assert (qs + [q])[1..] == qs[1..] + [q];
      RunSnoc(users, Step(users, st, qs[0]).state, qs[1..], q);
    }
  }

  /** Whatever happened before, a logout leaves an empty session, and both
      gates then redirect to the login form. */
  lemma LogoutEndsAnyTrace(users: map<string, string>, st: State, qs: seq<Request>, now: string)
    ensures Run(users, st, qs + [LogoutRequest]).session == map[]
    ensures Home(Run(users, st, qs + [LogoutRequest]).session) == Redirect(LOGIN_PATH)
    ensures Dashboard(Run(users, st, qs + [LogoutRequest]).session, now) == Redirect(LOGIN_PATH)
  {
    RunSnoc(users, st, qs, LogoutRequest);
  }

  /** A client that starts without a session and follows any trace sees on
      the dashboard a username from the table and its real login time,
      never the N/A fallback. */
  lemma FreshClientDashboard(users: map<string, string>, qs: seq<Request>, now: string)
    ensures var s := Run(users, State(map[], []), qs).session;
      var r := Dashboard(s, now);
      r.DashboardView? ==> r.name in users && LOGIN_TIME_KEY in s && r.loginTime == s[LOGIN_TIME_KEY]
  {
    RunKeepsInvariant(users, State(map[], []), qs);
  }
}
