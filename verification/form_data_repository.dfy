/** `FormDataRepository`: the block and specialisation lists that fill the
    user-creation form. */
module FormDataRepository {
  import opened Outcomes
  import opened Text
  import opened Records
  import opened Api

  const NoSession := "No hay sesión"

  /** `getBloques`: the list exactly when the response is 2xx with a body
      whose success flag is set. */
  function GetBloques(session: Session, api: HttpCall<BloquesResponse>): (x: Exchange<seq<Bloque>>)
    ensures Guarded(session, x, NoSession) && IsSettled(x.result)
    ensures x.result.Success? <==> session.Some? && HasBody(api) && api.body.value.success
    ensures x.result.Success? ==> x.result.data == api.body.value.bloques
    ensures session.Some? && HasBody(api) && !api.body.value.success ==> x.result == Error("Error al obtener bloques")
    ensures session.Some? && api.Responded? && !HasBody(api) ==> x.result == Error("Error: " + NatToString(api.code))
    ensures session.Some? && api.Failed? ==> x.result == Error("Error de conexión: " + OrNull(api.message))
  {
    match session
    case None => Exchange(Error(NoSession), None)
    case Some(token) =>
      var result :=
        match api
        case Failed(message) => Error("Error de conexión: " + OrNull(message))
        case Responded(code, body, _) =>
          if IsSuccessful(code) && body.Some? then
            if body.value.success then Success(body.value.bloques) else Error("Error al obtener bloques")
          else Error("Error: " + NatToString(code));
      Exchange(result, Some(Bearer(token)))
  }

  /** `getEspecializaciones`: the `data` list exactly when the response is
      2xx with a body whose success flag is set. */
  function GetEspecializaciones(session: Session, api: HttpCall<EspecializacionesResponse>): (x: Exchange<seq<Especializacion>>)
    ensures Guarded(session, x, NoSession) && IsSettled(x.result)
    ensures x.result.Success? <==> session.Some? && HasBody(api) && api.body.value.success
    ensures x.result.Success? ==> x.result.data == api.body.value.data
    ensures session.Some? && HasBody(api) && !api.body.value.success ==> x.result == Error("Error al obtener especializaciones")
    ensures session.Some? && api.Responded? && !HasBody(api) ==> x.result == Error("Error: " + NatToString(api.code))
    ensures session.Some? && api.Failed? ==> x.result == Error("Error de conexión: " + OrNull(api.message))
  {
    match session
    case None => Exchange(Error(NoSession), None)
    case Some(token) =>
      var result :=
        match api
        case Failed(message) => Error("Error de conexión: " + OrNull(message))
        case Responded(code, body, _) =>
          if IsSuccessful(code) && body.Some? then
            if body.value.success then Success(body.value.data) else Error("Error al obtener especializaciones")
          else Error("Error: " + NatToString(code));
      Exchange(result, Some(Bearer(token)))
  }
}
