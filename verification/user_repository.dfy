/** `UserRepository`: listing and creating users, including the rendering
    of the server's field-level validation errors into one message. */
module UserRepository {
  import opened Outcomes
  import opened Text
  import opened Records
  import opened Api

  const NoSession := "No hay sesión"

  /** One field's line of a validation message: `"field: m1, m2"`. */
  function FieldLine(entry: (string, seq<string>)): string
  {
    entry.0 + ": " + Join(entry.1, ", ")
  }

  /** The validation message: one line per field, in the order the errors
      map was decoded, joined with line breaks. */
  function FormatFieldErrors(errors: seq<(string, seq<string>)>): (r: string)
    ensures |errors| == 0 ==> r == ""
    ensures |errors| == 1 ==> r == FieldLine(errors[0])
  {
    Join(seq(|errors|, i requires 0 <= i < |errors| => FieldLine(errors[i])), "\n")
  }

  /** A text free of `c`, joined with a separator free of `c`, stays free of `c`. */
  lemma {:induction false} JoinAvoids(xs: seq<string>, sep: string, c: char)
    requires c !in sep
    requires forall k :: 0 <= k < |xs| ==> c !in xs[k]
    ensures c !in Join(xs, sep)
    decreases |xs|
  {
    if |xs| > 1 {
      JoinAvoids(xs[1..], sep, c);
      assert Join(xs, sep) == xs[0] + sep + Join(xs[1..], sep);
    }
  }

  /** When no field name or message contains a line break, the message
      splits back into exactly one line per field, in order, and line `i`
      begins with the name of field `i` followed by `": "`. */
  lemma FieldErrorLines(errors: seq<(string, seq<string>)>)
    requires |errors| >= 1
    requires forall k :: 0 <= k < |errors| ==> '\n' !in errors[k].0
    requires forall k, m :: 0 <= k < |errors| && 0 <= m < |errors[k].1| ==> '\n' !in errors[k].1[m]
    ensures var lines := Split(FormatFieldErrors(errors), '\n');
      && |lines| == |errors|
      && (forall k :: 0 <= k < |errors| ==> lines[k] == FieldLine(errors[k]))
      && (forall k :: 0 <= k < |errors| ==>
            |errors[k].0| + 2 <= |lines[k]| && lines[k][..|errors[k].0| + 2] == errors[k].0 + ": ")
  {
    var lines := seq(|errors|, i requires 0 <= i < |errors| => FieldLine(errors[i]));
    forall k | 0 <= k < |errors|
      ensures '\n' !in lines[k]
    {
      JoinAvoids(errors[k].1, ", ", '\n');
    }
    SplitJoin(lines, '\n');
  }

  /** Example of a rejected registration: `{email: ["ya existe"]}`. */
  lemma EmailTakenMessage()
    ensures FormatFieldErrors([("email", ["ya existe"])]) == "email: ya existe"
  {
    assert Join(["ya existe"], ", ") == "ya existe";
  }

  /** `getUsers`: a 2xx response with a body is the list, unchanged. */
  function GetUsers(session: Session, api: HttpCall<seq<Account>>): (x: Exchange<seq<Account>>)
    ensures Guarded(session, x, NoSession) && IsSettled(x.result)
    ensures x.result.Success? <==> session.Some? && HasBody(api)
    ensures x.result.Success? ==> x.result.data == api.body.value
    ensures session.Some? && api.Responded? && !HasBody(api) ==>
      x.result == Error("Error al obtener usuarios: " + NatToString(api.code))
    ensures session.Some? && api.Failed? ==> x.result == Error("Error de conexión: " + OrNull(api.message))
  {
    match session
    case None => Exchange(Error(NoSession), None)
    case Some(token) =>
      var result :=
        match api
        case Failed(message) => Error("Error de conexión: " + OrNull(message))
        case Responded(code, body, _) =>
          if IsSuccessful(code) && body.Some? then Success(body.value)
          else Error("Error al obtener usuarios: " + NatToString(code));
      Exchange(result, Some(Bearer(token)))
  }

  /** What `createUser` did: the exchange plus the request it sent. */
  datatype CreateExchange = CreateExchange(exchange: Exchange<Account>, sent: Option<CreateUserRequest>)

  /** `createUser`: succeeds only when the body says so AND carries the
      user; any other body renders its field errors, or a fixed message
      when it has none. */
  function CreateUser(session: Session, request: CreateUserRequest, api: HttpCall<CreateUserResponse>): (c: CreateExchange)
    ensures Guarded(session, c.exchange, NoSession) && IsSettled(c.exchange.result)
    ensures c.sent.Some? <==> session.Some?
    ensures c.sent.Some? ==> c.sent.value == request
    ensures c.exchange.result.Success? <==>
      session.Some? && HasBody(api) && api.body.value.success && api.body.value.user.Some?
    ensures c.exchange.result.Success? ==> c.exchange.result.data == api.body.value.user.value
    ensures session.Some? && HasBody(api) && !(api.body.value.success && api.body.value.user.Some?) ==>
      c.exchange.result == Error(
        match api.body.value.errors
        case Some(errors) => FormatFieldErrors(errors)
        case None => "Error al crear usuario")
    ensures session.Some? && api.Responded? && !HasBody(api) ==>
      c.exchange.result == Error("Error: " + NatToString(api.code))
    ensures session.Some? && api.Failed? ==> c.exchange.result == Error("Error de conexión: " + OrNull(api.message))
  {
    match session
    case None => CreateExchange(Exchange(Error(NoSession), None), None)
    case Some(token) =>
      var result :=
        match api
        case Failed(message) => Error("Error de conexión: " + OrNull(message))
        case Responded(code, body, _) =>
          if IsSuccessful(code) && body.Some? then
            var response := body.value;
            if response.success && response.user.Some? then Success(response.user.value)
            else
              Error(match response.errors
                    case Some(errors) => FormatFieldErrors(errors)
                    case None => "Error al crear usuario")
          else Error("Error: " + NatToString(code));
      CreateExchange(Exchange(result, Some(Bearer(token))), Some(request))
  }

  /** A rejection without an errors map and one with an empty map differ:
      the first gives the fixed message, the second an empty message. A
      `success` flag without a user is a rejection too. */
  lemma RejectionMessages(token: string, request: CreateUserRequest, code: nat)
    requires IsSuccessful(code)
    ensures CreateUser(Some(token), request, Responded(code, Some(CreateUserResponse(false, None, None, None)), None)).exchange.result
      == Error("Error al crear usuario")
    ensures CreateUser(Some(token), request, Responded(code, Some(CreateUserResponse(false, None, None, Some([]))), None)).exchange.result
      == Error("")
    ensures CreateUser(Some(token), request, Responded(code, Some(CreateUserResponse(true, None, None, None)), None)).exchange.result.Error?
  {
  }
}
