/** `CreateUserViewModel`: the user list, the block and specialisation
    lists for the form, and the state of the latest user creation. */
module UserViewModel {
  import opened Outcomes
  import opened Records
  import opened Api
  import UserRepository
  import FormDataRepository

  /** The view model's four observable values. `createUser` is absent
      until a creation starts and after the screen resets it. */
  datatype UsersState = UsersState(
    users: Result<seq<Account>>, createUser: Option<Result<Account>>,
    bloques: Result<seq<Bloque>>, especializaciones: Result<seq<Especializacion>>)

  const Initial := UsersState(Loading, None, Loading, Loading)

  /** `loadUsers`: `Loading`, then the repository's answer; nothing else changes. */
  function LoadUsers(s: UsersState, session: Session, api: HttpCall<seq<Account>>): (t: UsersState)
    ensures IsSettled(t.users)
    ensures t.users.Success? <==> session.Some? && HasBody(api)
    ensures t.(users := s.users) == s
  {
    s.(users := UserRepository.GetUsers(session, api).result)
  }

  /** `loadBloques`. */
  function LoadBloques(s: UsersState, session: Session, api: HttpCall<BloquesResponse>): (t: UsersState)
    ensures IsSettled(t.bloques)
    ensures t.bloques.Success? <==> session.Some? && HasBody(api) && api.body.value.success
    ensures t.(bloques := s.bloques) == s
  {
    s.(bloques := FormDataRepository.GetBloques(session, api).result)
  }

  /** `loadEspecializaciones`. */
  function LoadEspecializaciones(s: UsersState, session: Session, api: HttpCall<EspecializacionesResponse>): (t: UsersState)
    ensures IsSettled(t.especializaciones)
    ensures t.especializaciones.Success? <==> session.Some? && HasBody(api) && api.body.value.success
    ensures t.(especializaciones := s.especializaciones) == s
  {
    s.(especializaciones := FormDataRepository.GetEspecializaciones(session, api).result)
  }

  /** `createUser`: the creation's result is published, and only a success
      triggers a reload of the user list, whose own outcome is `reload`. */
  function CreateUser(s: UsersState, session: Session, request: CreateUserRequest,
                      api: HttpCall<CreateUserResponse>, reload: HttpCall<seq<Account>>): (t: UsersState)
    ensures t.createUser.Some? && IsSettled(t.createUser.value)
    ensures t.createUser.value == UserRepository.CreateUser(session, request, api).exchange.result
    ensures t.createUser.value.Success? ==> t.users == UserRepository.GetUsers(session, reload).result
    ensures !t.createUser.value.Success? ==> t.users == s.users
    ensures t.bloques == s.bloques && t.especializaciones == s.especializaciones
  {
    var result := UserRepository.CreateUser(session, request, api).exchange.result;
    var published := s.(createUser := Some(result));
    if result.Success? then LoadUsers(published, session, reload) else published
  }

  /** `resetCreateUserState`. */
  function ResetCreateUser(s: UsersState): (t: UsersState)
    ensures t.createUser.None?
    ensures t.(createUser := s.createUser) == s
  {
    s.(createUser := None)
  }

  /** The operations the screen can trigger, each with the outcome of the
      calls it makes. */
  datatype Event =
    | UsersLoaded(usersCall: HttpCall<seq<Account>>)
    | BloquesLoaded(bloquesCall: HttpCall<BloquesResponse>)
    | EspecializacionesLoaded(especializacionesCall: HttpCall<EspecializacionesResponse>)
    | UserCreated(request: CreateUserRequest, createCall: HttpCall<CreateUserResponse>, reload: HttpCall<seq<Account>>)
    | CreateReset

  function Step(s: UsersState, session: Session, e: Event): UsersState
  {
    match e
    case UsersLoaded(c) => LoadUsers(s, session, c)
    case BloquesLoaded(c) => LoadBloques(s, session, c)
    case EspecializacionesLoaded(c) => LoadEspecializaciones(s, session, c)
    case UserCreated(r, c, l) => CreateUser(s, session, r, c, l)
    case CreateReset => ResetCreateUser(s)
  }

  function Run(s: UsersState, session: Session, events: seq<Event>): UsersState
    decreases |events|
  {
    if |events| == 0 then s else Run(Step(s, session, events[0]), session, events[1..])
  }

  /** Between operations, the creation state is never left `Loading`, and
      a list that has been loaded once never shows the indicator again. */
  predicate Settled(s: UsersState)
  {
    s.createUser != Some(Loading)
  }

  /** Whatever the screens do, the state stays settled between operations.
      This rests on each launched coroutine being one atomic step: the
      `Loading` values published while a request is in flight fall inside
      a step and are not observed here. */
  lemma {:induction false} RunStaysSettled(s: UsersState, session: Session, events: seq<Event>)
    requires Settled(s)
    ensures Settled(Run(s, session, events))
    ensures IsSettled(s.users) ==> IsSettled(Run(s, session, events).users)
    ensures IsSettled(s.bloques) ==> IsSettled(Run(s, session, events).bloques)
    decreases |events|
  {
    if |events| > 0 {
      RunStaysSettled(Step(s, session, events[0]), session, events[1..]);
    }
  }
}
