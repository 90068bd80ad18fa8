/** The user-creation form: what it sends, when its buttons are enabled,
    what its block and specialisation pickers show, and how it reacts to
    the creation's outcome. */
module CreateUserScreen {
  import opened Outcomes
  import opened Text
  import opened Records
  import Api
  import UserViewModel

  /** The form's fields. The role is one of the three listed roles; the
      block holds the chosen block's display name. */
  datatype CreateUserForm = CreateUserForm(
    nombres: string, apellidos: string, emailLogin: string, emailPersonal: string,
    password: string, role: string, bloque: Option<string>, especializacion: Option<string>)

  const Roles: seq<string> := ["student", "profesor", "admin"]

  const InitialForm := CreateUserForm("", "", "", "", "", "student", None, None)

  /** The role picker only offers the listed roles. */
  function PickRole(f: CreateUserForm, k: nat): (g: CreateUserForm)
    requires k < |Roles|
    ensures g.role in Roles
    ensures g.(role := f.role) == f
  {
    f.(role := Roles[k])
  }

  /** The required fields are filled in. */
  predicate CanSubmit(f: CreateUserForm)
  {
    NotBlank(f.nombres) && NotBlank(f.apellidos) && NotBlank(f.emailLogin) && NotBlank(f.password)
  }

  /** A creation is in flight. */
  predicate IsCreating(createUser: Option<Result<Account>>)
  {
    createUser == Some(Loading)
  }

  /** "CREAR USUARIO" is enabled. */
  predicate CreateEnabled(f: CreateUserForm, createUser: Option<Result<Account>>)
  {
    CanSubmit(f) && !IsCreating(createUser)
  }

  /** "CANCELAR" is enabled. */
  predicate CancelEnabled(createUser: Option<Result<Account>>)
  {
    !IsCreating(createUser)
  }

  /** The request the create button sends: the login name is the part of
      the login e-mail before its first `@` (the whole address when there
      is none), and a blank personal e-mail is not sent. */
  function SubmitRequest(f: CreateUserForm): (r: CreateUserRequest)
    ensures r.username.Some? && '@' !in r.username.value
    ensures r.username.value <= f.emailLogin
    ensures '@' in f.emailLogin ==> f.emailLogin[|r.username.value|] == '@'
    ensures '@' !in f.emailLogin ==> r.username.value == f.emailLogin
    ensures r.email == f.emailLogin && r.password == f.password
    ensures r.firstName == f.nombres && r.lastName == f.apellidos && r.role == f.role
    ensures r.bloqueAsignado == f.bloque && r.especializacion == f.especializacion
    ensures r.correoPersonal.Some? <==> NotBlank(f.emailPersonal)
    ensures r.correoPersonal.Some? ==> r.correoPersonal.value == f.emailPersonal
  {
    CreateUserRequest(
      Some(SubstringBefore(f.emailLogin, '@')), f.emailLogin, f.password, f.nombres, f.apellidos,
      f.role, f.bloque, f.especializacion,
      if NotBlank(f.emailPersonal) then Some(f.emailPersonal) else None)
  }

  /** Example: `"ana@x.org"` logs in as `"ana"`. */
  lemma UsernameExample()
    ensures SubmitRequest(InitialForm.(emailLogin := "ana@x.org")).username == Some("ana")
  {
    var r := SubmitRequest(InitialForm.(emailLogin := "ana@x.org"));
    assert "ana@x.org"[3] == '@';
    assert "ana@x.org"[..3] == "ana";
  }

  // ---------------------------------------------------------------------
  // Pickers
  // ---------------------------------------------------------------------

  /** What a picker that depends on a loaded list shows. */
  datatype PickerView<T> = PickerSpinner | PickerMenu(text: string, options: seq<T>) | PickerError(text: string)

  /** The block picker: its field shows the chosen display name or
      `"Sin asignar"`; its menu offers "no block" and then every block's
      display name. */
  function BlockPicker(state: Result<seq<Bloque>>, chosen: Option<string>): (v: PickerView<Option<string>>)
    ensures state.Loading? <==> v.PickerSpinner?
    ensures state.Error? ==> v == PickerError("Error: " + state.message)
    ensures state.Success? ==>
      && v.PickerMenu?
      && v.text == chosen.OrElse("Sin asignar")
      && |v.options| == |state.data| + 1
      && v.options[0].None?
      && forall k :: 0 <= k < |state.data| ==> v.options[k + 1] == Some(DisplayName(state.data[k]))
  {
    match state
    case Loading => PickerSpinner
    case Error(message) => PickerError("Error: " + message)
    case Success(bloques) =>
      PickerMenu(chosen.OrElse("Sin asignar"),
                 [None] + seq(|bloques|, k requires 0 <= k < |bloques| => Some(DisplayName(bloques[k]))))
  }

  /** The specialisation picker: the chosen name or `"Sin especialización"`;
      "no specialisation" and then every specialisation's name. */
  function SpecialisationPicker(state: Result<seq<Especializacion>>, chosen: Option<string>): (v: PickerView<Option<string>>)
    ensures state.Loading? <==> v.PickerSpinner?
    ensures state.Error? ==> v == PickerError("Error: " + state.message)
    ensures state.Success? ==>
      && v.PickerMenu?
      && v.text == chosen.OrElse("Sin especialización")
      && |v.options| == |state.data| + 1
      && v.options[0].None?
      && forall k :: 0 <= k < |state.data| ==> v.options[k + 1] == Some(state.data[k].nombre)
  {
    match state
    case Loading => PickerSpinner
    case Error(message) => PickerError("Error: " + message)
    case Success(data) =>
      PickerMenu(chosen.OrElse("Sin especialización"),
                 [None] + seq(|data|, k requires 0 <= k < |data| => Some(data[k].nombre)))
  }

  /** Choosing the `k`-th menu entry. */
  function Choose(v: PickerView<Option<string>>, k: nat): (c: Option<string>)
    requires v.PickerMenu? && k < |v.options|
  {
    v.options[k]
  }

  /** A block chosen from a loaded list is sent as its level and name; the
      first entry sends no block. */
  lemma ChosenBlockIsSent(f: CreateUserForm, bloques: seq<Bloque>, k: nat)
    requires k <= |bloques|
    ensures var v := BlockPicker(Success(bloques), f.bloque);
      var r := SubmitRequest(f.(bloque := Choose(v, k)));
      && (k == 0 ==> r.bloqueAsignado.None?)
      && (k > 0 ==> r.bloqueAsignado == Some(bloques[k - 1].nivel + " " + bloques[k - 1].nombre))
  {
  }

  // ---------------------------------------------------------------------
  // Reacting to the creation's outcome
  // ---------------------------------------------------------------------

  /** What the screen does when `createUserState` changes. */
  function React(createUser: Option<Result<Account>>): CreationReaction
  {
    ReactToCreation(createUser, "Usuario creado con éxito")
  }

  /** Applying the reaction to the view model. */
  function Apply(s: UserViewModel.UsersState): (t: UserViewModel.UsersState)
  {
    if React(s.createUser).reset then UserViewModel.ResetCreateUser(s) else s
  }

  /** A submitted creation always ends with the buttons usable again: the
      view model settles, the screen resets it, and a complete form can be
      submitted once more. */
  lemma CreationReenablesForm(s: UserViewModel.UsersState, session: Option<string>, f: CreateUserForm,
                              api: Api.HttpCall<CreateUserResponse>, reload: Api.HttpCall<seq<Account>>)
    requires CanSubmit(f)
    ensures var t := Apply(UserViewModel.CreateUser(s, session, SubmitRequest(f), api, reload));
      && t.createUser.None?
      && CreateEnabled(f, t.createUser) && CancelEnabled(t.createUser)
  {
  }
}
