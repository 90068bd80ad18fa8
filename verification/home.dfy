/** `HomeViewModel` and `HomeScreen`: the student's home, loaded from the
    profile, with placeholder counters and the logout action. */
module Home {
  import opened Outcomes
  import opened Text
  import opened Records
  import opened Api
  import AuthRepository

  /** `UserState` of the home screen. */
  datatype UserState = UserState(
    id: int, fullName: string, email: string, firstName: string, lastName: string,
    phone: string, country: string, city: string, role: string, englishLevel: string,
    profileImageUrl: Option<string>, candies: int, xp: int, isLoading: bool, error: Option<string>)

  /** `UserState()` with the given loading flag and error. */
  function Blank(isLoading: bool, error: Option<string>): (u: UserState)
    ensures u.isLoading == isLoading && u.error == error
    ensures u.firstName == "" && u.candies == 0 && u.xp == 0 && u.profileImageUrl.None?
  {
    UserState(0, "", "", "", "", "", "", "", "", "", None, 0, 0, isLoading, error)
  }

  /** The counters are not served by the backend yet; fixed values stand in. */
  const PlaceholderCandies := 42
  const PlaceholderXp := 1250

  /** `loadUserProfile` as one step: the state is first reset, so nothing
      of a previous load survives; a success shows the profile with the
      placeholder counters, an error only its message. */
  function LoadUserProfile(session: Session, api: Call<UserProfileResponse>): (u: UserState)
    ensures !u.isLoading
    ensures u.error.None? <==> session.Some? && api.Returned? && api.body.success
    ensures u.error.None? ==>
      var user := api.body.user;
      && u.id == user.id && u.fullName == user.fullName && u.email == user.email
      && u.firstName == user.firstName && u.lastName == user.lastName && u.role == user.role
      && u.candies == PlaceholderCandies && u.xp == PlaceholderXp && u.profileImageUrl.None?
    ensures u.error.Some? ==> u == Blank(false, u.error)
  {
    match AuthRepository.GetUserProfile(session, api).result
    case Success(user) =>
      UserState(user.id, user.fullName, user.email, user.firstName, user.lastName, user.phone,
                user.country, user.city, user.role, user.englishLevel, None,
                PlaceholderCandies, PlaceholderXp, false, None)
    case Error(message) => Blank(false, Some(message))
    case Loading => Blank(true, None)
  }

  /** The state while a load is in flight. */
  const Reloading := Blank(true, None)

  /** What `HomeScreen` shows. */
  datatype HomeView =
    | Spinner
    | ErrorView(heading: string, message: string, retry: string)
    | MainContent(welcome: string, candies: string, xp: string, drawerEmail: string)

  /** `WelcomeBanner`. */
  function Welcome(name: string): (text: string)
    ensures name == "" ==> text == "Welcome"
    ensures name != "" ==> |text| == 8 + |name| && text[..8] == "Welcome " && text[8..] == name
  {
    if name != "" then "Welcome " + name else "Welcome"
  }

  /** The screen: loading first, then the error with a retry button, then
      the home content. */
  function Render(u: UserState): (v: HomeView)
    ensures v.Spinner? <==> u.isLoading
    ensures v.ErrorView? <==> !u.isLoading && u.error.Some?
    ensures v.ErrorView? ==> v.message == u.error.value
    ensures v.MainContent? ==> v.welcome == Welcome(u.firstName) && v.drawerEmail == u.email
  {
    if u.isLoading then Spinner
    else if u.error.Some? then ErrorView("Ocurrió un error", u.error.value, "Reintentar")
    else MainContent(Welcome(u.firstName), IntToString(u.candies), IntToString(u.xp) + " XP", u.email)
  }

  /** A load (the first one, or "Reintentar" after an error) shows the
      indicator and then the home content exactly when the profile comes
      back, with the placeholder counters rendered as text. */
  lemma LoadOutcomeOnScreen(session: Session, api: Call<UserProfileResponse>)
    ensures Render(Reloading).Spinner?
    ensures var u := LoadUserProfile(session, api);
      && (Render(u).MainContent? <==> session.Some? && api.Returned? && api.body.success)
      && (Render(u).MainContent? ==> Render(u).candies == "42" && Render(u).xp == "1250 XP")
  {
    CounterTexts();
  }

  /** Example: the decimal forms of the two placeholder counters. */
  lemma CounterTexts()
    ensures NatToString(42) == "42"
    ensures NatToString(1250) == "1250"
  {
    assert NatToString(4) == "4";
    assert NatToString(1) == "1";
    assert NatToString(12) == "12";
    assert NatToString(125) == "125";
  }

  /** The drawer's logout: the token is cleared and the app returns to the
      start screen. */
  datatype LogoutOutcome = LogoutOutcome(session: Session, navigateTo: string)

  function LogoutAction(session: Session): (o: LogoutOutcome)
    ensures GetToken(o.session).None?
    ensures o.navigateTo == "main_screen"
  {
    LogoutOutcome(AuthRepository.Logout(session), "main_screen")
  }

  /** After logging out, a home load cannot reach the backend: it fails
      with the missing-token message whatever the backend would say. */
  lemma HomeAfterLogout(session: Session, api: Call<UserProfileResponse>)
    ensures var u := LoadUserProfile(LogoutAction(session).session, api);
      Render(u) == ErrorView("Ocurrió un error", AuthRepository.NoToken, "Reintentar")
  {
  }
}
