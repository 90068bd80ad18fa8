/** `ProfileViewModel` and `ProfileScreen`: the signed-in user's profile as
    shown, reloaded every time the screen comes back into view. */
module Profile {
  import opened Outcomes
  import opened Text
  import opened Records
  import opened Api
  import AuthRepository

  /** `ProfileUserState`. */
  datatype ProfileUserState = ProfileUserState(
    fullName: string, email: string, firstName: string, lastName: string, phone: string,
    country: string, city: string, role: string, englishLevel: string, birthDate: string,
    address: string, learningGoals: string, profileCompleted: bool, bloqueAsignado: string,
    createdAt: string, correoPersonal: string)

  /** The shown profile of a user: the full name unless it is blank, in
      which case the login name; the role with its first letter in upper
      case; every other field copied. */
  function ProfileOf(u: User): (p: ProfileUserState)
    ensures NotBlank(u.fullName) ==> p.fullName == u.fullName
    ensures IsBlank(u.fullName) ==> p.fullName == u.username
    ensures NotBlank(p.fullName) <==> NotBlank(u.fullName) || NotBlank(u.username)
    ensures |p.role| == |u.role|
    ensures |p.role| > 0 ==> p.role[1..] == u.role[1..] && p.role[0] == UpperChar(u.role[0]) && !('a' <= p.role[0] <= 'z')
    ensures p.email == u.email && p.firstName == u.firstName && p.lastName == u.lastName
    ensures p.phone == u.phone && p.country == u.country && p.city == u.city
    ensures p.englishLevel == u.englishLevel && p.birthDate == u.birthDate && p.address == u.address
    ensures p.learningGoals == u.learningGoals && p.profileCompleted == u.profileCompleted
    ensures p.bloqueAsignado == u.bloqueAsignado && p.createdAt == u.createdAt
    ensures p.correoPersonal == u.correoPersonal
  {
    ProfileUserState(
      if NotBlank(u.fullName) then u.fullName else u.username,
      u.email, u.firstName, u.lastName, u.phone, u.country, u.city, CapitalizeFirst(u.role),
      u.englishLevel, u.birthDate, u.address, u.learningGoals, u.profileCompleted,
      u.bloqueAsignado, u.createdAt, u.correoPersonal)
  }

  /** The view model's three observable values. */
  datatype ProfileVm = ProfileVm(uiState: Option<ProfileUserState>, isLoading: bool, error: Option<string>)

  const Initial := ProfileVm(None, false, None)

  /** `loadUserProfile` as one step. A success replaces the profile and
      clears the error; an error keeps the last profile and records the
      message. */
  function LoadUserProfile(s: ProfileVm, session: Session, api: Call<UserProfileResponse>): (t: ProfileVm)
    ensures !t.isLoading
    ensures t.error.None? <==> session.Some? && api.Returned? && api.body.success
    ensures t.error.None? ==> t.uiState == Some(ProfileOf(api.body.user))
    ensures t.error.Some? ==> t.uiState == s.uiState
  {
    match AuthRepository.GetUserProfile(session, api).result
    case Success(user) => ProfileVm(Some(ProfileOf(user)), false, None)
    case Error(message) => s.(isLoading := false, error := Some(message))
    case Loading => s.(isLoading := false)
  }

  // ---------------------------------------------------------------------
  // Screen
  // ---------------------------------------------------------------------

  /** One labelled row of a profile section. */
  datatype Field = Field(title: string, text: string)

  /** `ifEmpty`: the placeholder stands in for an empty value only. */
  function IfEmpty(value: string, placeholder: string): (r: string)
    ensures value != "" ==> r == value
    ensures value == "" ==> r == placeholder
  {
    if value == "" then placeholder else value
  }

  /** "Información Personal". */
  function PersonalInfo(p: ProfileUserState): (fields: seq<Field>)
    ensures |fields| == 8
    ensures forall k :: 0 <= k < |fields| ==> fields[k].text != ""
  {
    [ Field("Nombre", IfEmpty(p.firstName, "No especificado")),
      Field("Apellido", IfEmpty(p.lastName, "No especificado")),
      Field("Teléfono", IfEmpty(p.phone, "No especificado")),
      Field("País", IfEmpty(p.country, "No especificado")),
      Field("Ciudad", IfEmpty(p.city, "No especificado")),
      Field("Fecha de Nacimiento", IfEmpty(p.birthDate, "No especificada")),
      Field("Dirección", IfEmpty(p.address, "No especificada")),
      Field("Correo Personal", IfEmpty(p.correoPersonal, "No especificado")) ]
  }

  /** "Información Académica": the role has no placeholder. */
  function AcademicInfo(p: ProfileUserState): (fields: seq<Field>)
    ensures |fields| == 4 && fields[1] == Field("Rol", p.role)
    ensures forall k :: 0 <= k < |fields| && k != 1 ==> fields[k].text != ""
  {
    [ Field("Nivel de Inglés", IfEmpty(p.englishLevel, "No evaluado")),
      Field("Rol", p.role),
      Field("Bloque Asignado", IfEmpty(p.bloqueAsignado, "No asignado")),
      Field("Objetivos de Aprendizaje", IfEmpty(p.learningGoals, "No definidos")) ]
  }

  /** What `ProfileScreen` shows. */
  datatype ProfileView =
    | Spinner
    | ErrorText(text: string)
    | Content(name: string, email: string, role: string, personal: seq<Field>, academic: seq<Field>)

  /** The screen's choice: the indicator only before the first profile
      arrives, then the error, then the profile (even while it reloads),
      and the indicator as a fallback. */
  function Render(s: ProfileVm): (v: ProfileView)
    ensures v.ErrorText? <==> !(s.isLoading && s.uiState.None?) && s.error.Some?
    ensures v.ErrorText? ==> v.text == "Error: " + s.error.value
    ensures v.Content? <==> s.error.None? && s.uiState.Some?
    ensures v.Content? ==> v.name == s.uiState.value.fullName && v.role == s.uiState.value.role
    ensures v.Spinner? <==> s.uiState.None? && (s.isLoading || s.error.None?)
  {
    if s.isLoading && s.uiState.None? then Spinner
    else if s.error.Some? then ErrorText("Error: " + s.error.value)
    else if s.uiState.Some? then
      var p := s.uiState.value;
      Content(p.fullName, p.email, p.role, PersonalInfo(p), AcademicInfo(p))
    else Spinner
  }

  /** Coming back to the screen: the reload starts with the indicator on,
      which hides nothing once a profile has been shown. */
  function StartReload(s: ProfileVm): (t: ProfileVm)
    ensures t.isLoading && t.uiState == s.uiState && t.error == s.error
  {
    s.(isLoading := true)
  }

  /** A reload never blanks a shown profile, and its outcome decides what
      is shown next: the new profile, or the error in place of the old one. */
  lemma ReloadKeepsProfileOnScreen(s: ProfileVm, session: Session, api: Call<UserProfileResponse>)
    requires Render(s).Content?
    ensures Render(StartReload(s)) == Render(s)
    ensures var t := LoadUserProfile(StartReload(s), session, api);
      && (session.Some? && api.Returned? && api.body.success ==>
            Render(t).Content? && Render(t).name == ProfileOf(api.body.user).fullName)
      && (!(session.Some? && api.Returned? && api.body.success) ==> Render(t).ErrorText?)
  {
  }

  /** Example: a user with a blank full name is shown under the login name, with a
      capitalised role. */
  lemma BlankFullNameShowsUsername(u: User)
    requires u.fullName == " " && u.username == "ana" && u.role == "student"
    ensures ProfileOf(u).fullName == "ana" && ProfileOf(u).role == "Student"
  {
    assert IsBlank(" ");
    var r := ProfileOf(u).role;
    assert r[1..] == "tudent" && r[0] == 'S';
    assert r == [r[0]] + r[1..];
  }
}
