/** `EditProfileViewModel` and `EditProfileScreen`: the editable copy of
    the profile, its seven editable fields, and saving them. */
module EditProfile {
  import opened Outcomes
  import opened Records
  import opened Api
  import AuthRepository

  /** `EditProfileUiState`: seven editable fields and two shown ones. */
  datatype EditProfileUiState = EditProfileUiState(
    firstName: string, lastName: string, phone: string, country: string, city: string,
    address: string, correoPersonal: string, email: string, role: string)

  const EmptyForm := EditProfileUiState("", "", "", "", "", "", "", "", "")

  /** The view model's four observable values. */
  datatype EditVm = EditVm(ui: EditProfileUiState, isLoading: bool, error: Option<string>, saveSuccess: bool)

  /** The state before `init`'s load has finished. */
  const Initial := EditVm(EmptyForm, true, None, false)

  /** The form filled from a profile. */
  function FormOf(u: User): (f: EditProfileUiState)
    ensures f.firstName == u.firstName && f.lastName == u.lastName && f.phone == u.phone
    ensures f.country == u.country && f.city == u.city && f.address == u.address
    ensures f.correoPersonal == u.correoPersonal && f.email == u.email && f.role == u.role
  {
    EditProfileUiState(u.firstName, u.lastName, u.phone, u.country, u.city, u.address,
                       u.correoPersonal, u.email, u.role)
  }

  /** `loadInitialProfile`: a success fills the form, an error is recorded
      and leaves the form as it was. */
  function LoadInitialProfile(s: EditVm, session: Session, api: Call<UserProfileResponse>): (t: EditVm)
    ensures !t.isLoading && t.saveSuccess == s.saveSuccess
    ensures session.Some? && api.Returned? && api.body.success ==>
      t.ui == FormOf(api.body.user) && t.error == s.error
    ensures !(session.Some? && api.Returned? && api.body.success) ==>
      t.ui == s.ui && t.error.Some?
  {
    match AuthRepository.GetUserProfile(session, api).result
    case Success(user) => s.(ui := FormOf(user), isLoading := false)
    case Error(message) => s.(error := Some(message), isLoading := false)
    case Loading => s.(isLoading := false)
  }

  /** The seven text fields the screen edits. */
  datatype EditableField = FirstName | LastName | Phone | Country | City | Address | CorreoPersonal

  function Get(ui: EditProfileUiState, f: EditableField): string
  {
    match f
    case FirstName => ui.firstName
    case LastName => ui.lastName
    case Phone => ui.phone
    case Country => ui.country
    case City => ui.city
    case Address => ui.address
    case CorreoPersonal => ui.correoPersonal
  }

  /** The seven `on…Change` handlers: the edited field takes the value and
      nothing else changes. */
  function Edit(ui: EditProfileUiState, f: EditableField, value: string): (r: EditProfileUiState)
    ensures Get(r, f) == value
    ensures forall g :: g != f ==> Get(r, g) == Get(ui, g)
    ensures r.email == ui.email && r.role == ui.role
  {
    match f
    case FirstName => ui.(firstName := value)
    case LastName => ui.(lastName := value)
    case Phone => ui.(phone := value)
    case Country => ui.(country := value)
    case City => ui.(city := value)
    case Address => ui.(address := value)
    case CorreoPersonal => ui.(correoPersonal := value)
  }

  /** The key each field is sent under. */
  function Key(f: EditableField): string
  {
    match f
    case FirstName => "first_name"
    case LastName => "last_name"
    case Phone => "phone"
    case Country => "country"
    case City => "city"
    case Address => "address"
    case CorreoPersonal => "correo_personal"
  }

  /** The fields are sent under seven different keys. */
  lemma KeysDistinct(f: EditableField, g: EditableField)
    ensures Key(f) == Key(g) <==> f == g
  {
  }

  /** The map `saveProfile` sends: every editable field under its key, and
      nothing else (neither the e-mail nor the role). */
  function ProfileData(ui: EditProfileUiState): (m: map<string, string>)
    ensures forall f :: Key(f) in m && m[Key(f)] == Get(ui, f)
    ensures forall k :: k in m ==> exists f :: Key(f) == k
  {
    var m := map["first_name" := ui.firstName, "last_name" := ui.lastName, "phone" := ui.phone,
                 "country" := ui.country, "city" := ui.city, "address" := ui.address,
                 "correo_personal" := ui.correoPersonal];
    assert m.Keys == {Key(FirstName), Key(LastName), Key(Phone), Key(Country), Key(City), Key(Address), Key(CorreoPersonal)};
    m
  }

  /** The map has exactly seven entries, one per editable field. */
  lemma ProfileDataSize(ui: EditProfileUiState)
    ensures |ProfileData(ui)| == 7
  {
    var keys := ProfileData(ui).Keys;
    var k0 := {"first_name", "last_name", "phone"};
    var k1 := {"country", "city", "address", "correo_personal"};
    assert |k0| == 3;
    assert |k1| == 4;
    assert k0 !! k1;
    assert keys == k0 + k1;
  }

  /** What `saveProfile` did: the state after it and the map it sent. */
  datatype SaveOutcome = SaveOutcome(state: EditVm, sent: Option<map<string, string>>)

  /** `saveProfile`: a success raises `saveSuccess`; an error is recorded;
      an earlier error is not cleared by a success, and the form is kept
      either way. */
  function SaveProfile(s: EditVm, session: Session, api: Call<UpdateProfileResponse>): (o: SaveOutcome)
    ensures !o.state.isLoading && o.state.ui == s.ui
    ensures o.sent.Some? <==> session.Some?
    ensures o.sent.Some? ==> o.sent.value == ProfileData(s.ui)
    ensures o.state.saveSuccess <==> s.saveSuccess || (session.Some? && api.Returned? && api.body.success)
    ensures session.Some? && api.Returned? && api.body.success ==> o.state.error == s.error
    ensures !(session.Some? && api.Returned? && api.body.success) ==> o.state.error.Some?
  {
    var update := AuthRepository.UpdateUserProfile(session, ProfileData(s.ui), api);
    var state :=
      match update.exchange.result
      case Success(_) => s.(saveSuccess := true, isLoading := false)
      case Error(message) => s.(error := Some(message), isLoading := false)
      case Loading => s.(isLoading := false);
    SaveOutcome(state, update.sent)
  }

  /** "Guardar" is disabled while loading or saving. */
  predicate SaveEnabled(s: EditVm)
  {
    !s.isLoading
  }

  /** The screen leaves once `saveSuccess` is raised. */
  predicate NavigatesBack(s: EditVm)
  {
    s.saveSuccess
  }

  /** Load, edit one field, save: the backend receives the loaded profile
      with exactly that field changed. */
  lemma SaveSendsLoadedProfileWithEdit(session: Session, load: Call<UserProfileResponse>,
                                       f: EditableField, value: string, save: Call<UpdateProfileResponse>)
    requires session.Some? && load.Returned? && load.body.success
    ensures var loaded := LoadInitialProfile(Initial, session, load);
      var edited := loaded.(ui := Edit(loaded.ui, f, value));
      var sent := SaveProfile(edited, session, save).sent;
      && SaveEnabled(loaded)
      && sent.Some?
      && sent.value[Key(f)] == value
      && (forall g :: g != f ==> sent.value[Key(g)] == Get(FormOf(load.body.user), g))
  {
  }

  /** A successful save leaves the screen; a failed one stays with an
      error and the form usable again. */
  lemma SaveOutcomeOnScreen(s: EditVm, session: Session, api: Call<UpdateProfileResponse>)
    requires !s.saveSuccess
    ensures var t := SaveProfile(s, session, api).state;
      && SaveEnabled(t)
      && (NavigatesBack(t) <==> session.Some? && api.Returned? && api.body.success)
      && (!NavigatesBack(t) ==> t.error.Some?)
  {
  }
}
