/** The login view model and the reaction of the login screen to its
    result: a toast, and for a success the dashboard chosen by role. */
module Login {
  import opened Outcomes
  import opened Records
  import opened Api
  import AuthRepository

  /** `LoginState`: `loginResult` is absent until an attempt finishes. */
  datatype LoginState = LoginState(isLoading: bool, loginResult: Option<Result<LoginSuccessData>>)

  const Initial := LoginState(false, None)

  /** The first step of `login`: a fresh state that is loading. */
  function Start(): (s: LoginState)
    ensures s.isLoading && s.loginResult.None?
  {
    LoginState(true, None)
  }

  /** The last step of `login`: loading ends and the result is kept. */
  function Complete(result: Result<LoginSuccessData>): (s: LoginState)
    ensures !s.isLoading && s.loginResult == Some(result)
  {
    LoginState(false, Some(result))
  }

  /** `login(username, password)` as one step: whatever the state before,
      the state after holds the repository's result, and the session is the
      one the repository leaves behind. */
  function SubmitLogin(session: Session, username: string, password: string, api: Call<LoginResponse>): (out: (LoginState, Session))
    ensures !out.0.isLoading && out.0.loginResult.Some?
    ensures out.0.loginResult.value.Success? <==> api.Returned?
    ensures out.0.loginResult.value.Success? ==> GetToken(out.1) == Some(api.body.token)
    ensures out.0.loginResult.value.Error? ==> out.1 == session
    ensures out.0.loginResult == Some(AuthRepository.Login(session, username, password, api).result)
    ensures out.1 == AuthRepository.Login(session, username, password, api).session
  {
    var o := AuthRepository.Login(session, username, password, api);
    (Complete(o.result), o.session)
  }

  /** The progress indicator replaces the login button while loading. */
  predicate ShowsLoginButton(s: LoginState)
  {
    !s.isLoading
  }

  /** The dashboard route for a role. */
  function Destination(role: string): (route: string)
    ensures route == "admin_dashboard_screen" <==> role == "admin"
    ensures route == "teacher_dashboard_screen" <==> role == "profesor"
    ensures route == "home_screen" <==> role != "admin" && role != "profesor"
  {
    if role == "admin" then "admin_dashboard_screen"
    else if role == "profesor" then "teacher_dashboard_screen"
    else "home_screen"
  }

  /** What the screen does when `loginResult` changes. */
  datatype Reaction = Reaction(toast: Option<string>, navigateTo: Option<string>)

  /** The screen's effect on a login result: a success toasts and navigates,
      an error toasts its message, and nothing happens otherwise. */
  function React(loginResult: Option<Result<LoginSuccessData>>): (r: Reaction)
    ensures r.navigateTo.Some? <==> loginResult.Some? && loginResult.value.Success?
    ensures r.navigateTo.Some? ==> r.navigateTo.value == Destination(loginResult.value.data.role)
    ensures r.toast.Some? <==> loginResult.Some? && !loginResult.value.Loading?
    ensures loginResult.Some? && loginResult.value.Success? ==> r.toast == Some("Login exitoso")
    ensures loginResult.Some? && loginResult.value.Error? ==> r.toast == Some("Error: " + loginResult.value.message)
  {
    match loginResult
    case None => Reaction(None, None)
    case Some(Success(data)) => Reaction(Some("Login exitoso"), Some(Destination(data.role)))
    case Some(Error(message)) => Reaction(Some("Error: " + message), None)
    case Some(Loading) => Reaction(None, None)
  }

  /** End to end: the screen navigates exactly when the backend answered,
      and a response without a role lands on the student home. */
  lemma LoginNavigation(session: Session, username: string, password: string, api: Call<LoginResponse>)
    ensures var r := React(SubmitLogin(session, username, password, api).0.loginResult);
      && (r.navigateTo.Some? <==> api.Returned?)
      && (api.Returned? && api.body.role.None? ==> r.navigateTo == Some("home_screen"))
      && (api.Returned? && api.body.role == Some("admin") ==> r.navigateTo == Some("admin_dashboard_screen"))
      && (api.Returned? && api.body.role == Some("profesor") ==> r.navigateTo == Some("teacher_dashboard_screen"))
      && (api.Threw? ==> r.toast.Some? && r.navigateTo.None?)
  {
  }

  /** The events the login view model sees. */
  datatype Event = Started | Completed(result: Result<LoginSuccessData>)

  function Step(s: LoginState, e: Event): LoginState
  {
    match e
    case Started => Start()
    case Completed(r) => Complete(r)
  }

  function Run(s: LoginState, events: seq<Event>): LoginState
    decreases |events|
  {
    if |events| == 0 then s else Run(Step(s, events[0]), events[1..])
  }

  /** A state never shows a progress indicator and a result together. */
  predicate Consistent(s: LoginState)
  {
    s.isLoading ==> s.loginResult.None?
  }

  /** Every reachable state is consistent, and a run that ends with a
      completed attempt shows the button again with that attempt's result. */
  lemma {:induction false} RunConsistent(s: LoginState, events: seq<Event>)
    requires Consistent(s)
    ensures Consistent(Run(s, events))
    ensures |events| > 0 && events[|events| - 1].Completed? ==>
      Run(s, events) == Complete(events[|events| - 1].result)
    decreases |events|
  {
    if |events| > 0 {
      RunConsistent(Step(s, events[0]), events[1..]);
    }
  }
}
