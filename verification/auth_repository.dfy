/** `AuthRepository`: login and logout against the session store, and the
    authenticated reads and writes of the profile, classes, evaluations,
    clubs and blocks. */
module AuthRepository {
  import opened Outcomes
  import opened Text
  import opened Records
  import opened Api

  const NoToken := "No hay token de autenticación"

  /** The result of a login together with the session it leaves behind and
      the credentials it sent. */
  datatype LoginOutcome = LoginOutcome(result: Result<LoginSuccessData>, session: Session, request: LoginRequest)

  /** `login`: sends the credentials; on a response, stores its token and
      succeeds with the token and the role (`"student"` when absent); on an
      exception, leaves the session alone and reports the message. */
  function Login(session: Session, username: string, password: string, api: Call<LoginResponse>): (o: LoginOutcome)
    ensures o.request == LoginRequest(username, password)
    ensures IsSettled(o.result)
    ensures o.result.Success? <==> api.Returned?
    ensures o.result.Success? ==> o.result.data.token == api.body.token
    ensures o.result.Success? ==> GetToken(o.session) == Some(o.result.data.token)
    ensures api.Returned? && api.body.role.Some? ==> o.result.data.role == api.body.role.value
    ensures api.Returned? && api.body.role.None? ==> o.result.data.role == "student"
    ensures o.result.Error? ==> o.session == session
    ensures api.Threw? && api.message.Some? ==> o.result == Error(api.message.value)
    ensures api.Threw? && api.message.None? ==> o.result == Error("Error de login desconocido")
  {
    match api
    case Returned(response) =>
      var stored := SaveToken(session, response.token);
      LoginOutcome(Success(LoginSuccessData(response.token, response.role.OrElse("student"))), stored, LoginRequest(username, password))
    case Threw(message) =>
      LoginOutcome(Error(message.OrElse("Error de login desconocido")), session, LoginRequest(username, password))
  }

  /** `logout`: purely local, the token is gone afterwards. */
  function Logout(session: Session): (s: Session)
    ensures GetToken(s).None?
  {
    ClearToken(session)
  }

  /** `getUserClubs`: a rejected response surfaces the backend's message
      when there is one. */
  function GetUserClubs(session: Session, api: Call<ClubsResponse>): (x: Exchange<seq<Club>>)
    ensures Guarded(session, x, NoToken) && IsSettled(x.result)
    ensures x.result.Success? <==> session.Some? && api.Returned? && api.body.success
    ensures x.result.Success? ==> x.result.data == api.body.clubs
    ensures session.Some? && api.Returned? && !api.body.success ==>
      x.result == Error(api.body.message.OrElse("Error al obtener clubs"))
    ensures session.Some? && api.Threw? ==> x.result == Error(api.message.OrElse("Error de conexión"))
  {
    match session
    case None => Exchange(Error(NoToken), None)
    case Some(token) =>
      var result :=
        match api
        case Threw(message) => Error(message.OrElse("Error de conexión"))
        case Returned(response) =>
          if response.success then Success(response.clubs)
          else Error(response.message.OrElse("Error al obtener clubs"));
      Exchange(result, Some(Bearer(token)))
  }

  /** `getUserProfile`: a rejected response gives a fixed message whatever
      the body holds. */
  function GetUserProfile(session: Session, api: Call<UserProfileResponse>): (x: Exchange<User>)
    ensures Guarded(session, x, NoToken) && IsSettled(x.result)
    ensures x.result.Success? <==> session.Some? && api.Returned? && api.body.success
    ensures x.result.Success? ==> x.result.data == api.body.user
    ensures session.Some? && api.Returned? && !api.body.success ==>
      x.result == Error("Error del backend al obtener perfil")
    ensures session.Some? && api.Threw? ==> x.result == Error(api.message.OrElse("Error de red al obtener perfil"))
  {
    match session
    case None => Exchange(Error(NoToken), None)
    case Some(token) =>
      var result :=
        match api
        case Threw(message) => Error(message.OrElse("Error de red al obtener perfil"))
        case Returned(response) =>
          if response.success then Success(response.user) else Error("Error del backend al obtener perfil");
      Exchange(result, Some(Bearer(token)))
  }

  /** What `updateUserProfile` did: the exchange plus the form it sent. */
  datatype UpdateExchange = UpdateExchange(exchange: Exchange<User>, sent: Option<map<string, string>>)

  /** `updateUserProfile`: sends the profile data unchanged; a rejected
      response gives a fixed message whatever the body holds. */
  function UpdateUserProfile(session: Session, profileData: map<string, string>, api: Call<UpdateProfileResponse>): (u: UpdateExchange)
    ensures Guarded(session, u.exchange, NoToken) && IsSettled(u.exchange.result)
    ensures u.sent.Some? <==> session.Some?
    ensures u.sent.Some? ==> u.sent.value == profileData
    ensures u.exchange.result.Success? <==> session.Some? && api.Returned? && api.body.success
    ensures u.exchange.result.Success? ==> u.exchange.result.data == api.body.user
    ensures session.Some? && api.Returned? && !api.body.success ==>
      u.exchange.result == Error("Error del backend al actualizar perfil")
    ensures session.Some? && api.Threw? ==> u.exchange.result == Error(api.message.OrElse("Error de red al actualizar perfil"))
  {
    match session
    case None => UpdateExchange(Exchange(Error(NoToken), None), None)
    case Some(token) =>
      var result :=
        match api
        case Threw(message) => Error(message.OrElse("Error de red al actualizar perfil"))
        case Returned(response) =>
          if response.success then Success(response.user) else Error("Error del backend al actualizar perfil");
      UpdateExchange(Exchange(result, Some(Bearer(token))), Some(profileData))
  }

  /** `getUserClasses`: a rejected response gives a fixed message whatever
      the body holds. */
  function GetUserClasses(session: Session, api: Call<ClassesResponse>): (x: Exchange<seq<Clase>>)
    ensures Guarded(session, x, NoToken) && IsSettled(x.result)
    ensures x.result.Success? <==> session.Some? && api.Returned? && api.body.success
    ensures x.result.Success? ==> x.result.data == api.body.clases
    ensures session.Some? && api.Returned? && !api.body.success ==>
      x.result == Error("Error del backend al obtener clases")
    ensures session.Some? && api.Threw? ==> x.result == Error(api.message.OrElse("Error de red al obtener clases"))
  {
    match session
    case None => Exchange(Error(NoToken), None)
    case Some(token) =>
      var result :=
        match api
        case Threw(message) => Error(message.OrElse("Error de red al obtener clases"))
        case Returned(response) =>
          if response.success then Success(response.clases) else Error("Error del backend al obtener clases");
      Exchange(result, Some(Bearer(token)))
  }

  /** `getUserEvaluations`: the body is decoded in the object form only (a
      body that does not decode is an exception); a rejected response
      surfaces the backend's message when there is one. */
  function GetUserEvaluations(session: Session, api: Call<EvaluationsResponse>): (x: Exchange<seq<Evaluation>>)
    ensures Guarded(session, x, NoToken) && IsSettled(x.result)
    ensures x.result.Success? <==> session.Some? && api.Returned? && api.body.success
    ensures x.result.Success? ==> x.result.data == api.body.evaluaciones
    ensures session.Some? && api.Returned? && !api.body.success ==>
      x.result == Error(api.body.message.OrElse("Error al obtener evaluaciones"))
    ensures session.Some? && api.Threw? ==> x.result == Error(api.message.OrElse("Error de conexión"))
  {
    match session
    case None => Exchange(Error(NoToken), None)
    case Some(token) =>
      var result :=
        match api
        case Threw(message) => Error(message.OrElse("Error de conexión"))
        case Returned(response) =>
          if response.success then Success(response.evaluaciones)
          else Error(response.message.OrElse("Error al obtener evaluaciones"));
      Exchange(result, Some(Bearer(token)))
  }

  /** `getBloques`: a non-2xx status or a missing body reports the status
      code; a rejected body gives a fixed message. */
  function GetBloques(session: Session, api: HttpCall<BloquesResponse>): (x: Exchange<seq<Bloque>>)
    ensures Guarded(session, x, NoToken) && IsSettled(x.result)
    ensures x.result.Success? <==> session.Some? && HasBody(api) && api.body.value.success
    ensures x.result.Success? ==> x.result.data == api.body.value.bloques
    ensures session.Some? && HasBody(api) && !api.body.value.success ==>
      x.result == Error("Error del backend al obtener bloques")
    ensures session.Some? && api.Responded? && !HasBody(api) ==>
      x.result == Error("Error de red: " + NatToString(api.code))
    ensures session.Some? && api.Failed? ==> x.result == Error(api.message.OrElse("Error de red al obtener bloques"))
  {
    match session
    case None => Exchange(Error(NoToken), None)
    case Some(token) =>
      var result :=
        match api
        case Failed(message) => Error(message.OrElse("Error de red al obtener bloques"))
        case Responded(code, body, _) =>
          if IsSuccessful(code) && body.Some? then
            if body.value.success then Success(body.value.bloques)
            else Error("Error del backend al obtener bloques")
          else Error("Error de red: " + NatToString(code));
      Exchange(result, Some(Bearer(token)))
  }

  /** Example, the profile scenario: with token `"abc123"` and a successful profile
      response the result is that user; without a token, no request. */
  lemma ProfileScenarios(user: User, api: Call<UserProfileResponse>)
    ensures GetUserProfile(Some("abc123"), Returned(UserProfileResponse(true, user))).result == Success(user)
    ensures GetUserProfile(Some("abc123"), Returned(UserProfileResponse(true, user))).authorization == Some("Bearer abc123")
    ensures GetUserProfile(None, api) == Exchange(Error("No hay token de autenticación"), None)
  {
    assert Bearer("abc123") == "Bearer abc123";
  }

  /** Login followed by a read of the session yields the new token, and a
      logout afterwards leaves no token, however often it is repeated. */
  lemma LoginThenLogout(session: Session, username: string, password: string, response: LoginResponse)
    ensures var o := Login(session, username, password, Returned(response));
      && GetToken(o.session) == Some(response.token)
      && GetToken(Logout(o.session)).None?
      && Logout(Logout(o.session)) == Logout(o.session)
  {
  }
}
