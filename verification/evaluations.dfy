/** The evaluations view model and screen: the student's evaluations,
    reloaded whenever the screen appears, and each evaluation's card. */
module Evaluations {
  import opened Outcomes
  import opened Text
  import opened Records
  import opened Api
  import AuthRepository

  /** `EvaluationsUiState`. */
  datatype EvaluationsUiState = EvaluationsUiState(isLoading: bool, evaluations: seq<Evaluation>, error: Option<string>)

  const Initial := EvaluationsUiState(true, [], None)

  /** The first step of `loadEvaluations`: loading, the old error cleared,
      the old list kept. */
  function StartLoad(s: EvaluationsUiState): (t: EvaluationsUiState)
    ensures t.isLoading && t.error.None? && t.evaluations == s.evaluations
  {
    s.(isLoading := true, error := None)
  }

  /** The last step. The source has no branch for `Loading`, so the
      indicator would stay on. */
  function FinishLoad(s: EvaluationsUiState, result: Result<seq<Evaluation>>): (t: EvaluationsUiState)
    ensures result.Success? ==> t == EvaluationsUiState(false, result.data, None)
    ensures result.Error? ==> t == EvaluationsUiState(false, [], Some(result.message))
    ensures result.Loading? ==> t == s
  {
    match result
    case Success(evaluations) => EvaluationsUiState(false, evaluations, None)
    case Error(message) => EvaluationsUiState(false, [], Some(message))
    case Loading => s
  }

  /** `loadEvaluations` as one step. The repository never answers
      `Loading`, so the indicator always goes away, and a list and an
      error are never shown together. */
  function LoadEvaluations(s: EvaluationsUiState, session: Session, api: Call<EvaluationsResponse>): (t: EvaluationsUiState)
    ensures !t.isLoading
    ensures t.error.None? <==> session.Some? && api.Returned? && api.body.success
    ensures t.error.None? ==> t.evaluations == api.body.evaluaciones
    ensures t.error.Some? ==> t.evaluations == []
  {
    FinishLoad(StartLoad(s), AuthRepository.GetUserEvaluations(session, api).result)
  }

  // ---------------------------------------------------------------------
  // The card
  // ---------------------------------------------------------------------

  /** `Float.toInt()`: rounds toward zero and saturates at the bounds of a
      32-bit integer. */
  function ToInt(x: real): (n: int)
    ensures -0x8000_0000 <= n <= 0x7FFF_FFFF
    ensures 0.0 <= x < 0x7FFF_FFFF as real ==> n as real <= x < n as real + 1.0
    ensures -0x8000_0000 as real < x <= 0.0 ==> n as real - 1.0 < x <= n as real
  {
    var t := if x >= 0.0 then x.Floor else -((-x).Floor);
    if t > 0x7FFF_FFFF then 0x7FFF_FFFF else if t < -0x8000_0000 then -0x8000_0000 else t
  }

  /** The grade as shown, and whether it is shown in the passing colour. */
  datatype Grade = Grade(text: string, passing: bool)

  function GradeOf(x: real): (g: Grade)
    ensures g.passing <==> x >= 60.0
    ensures ToInt(x) >= 0 ==> g.text == NatToString(ToInt(x))
    ensures ToInt(x) < 0 ==> g.text == "-" + NatToString(-ToInt(x))
  {
    Grade(IntToString(ToInt(x)), x >= 60.0)
  }

  /** The colour agrees with the number shown: a grade is shown in the
      passing colour exactly when its displayed whole number is at least 60,
      although the colour is decided on the unrounded grade. */
  lemma PassingMatchesShownNumber(x: real)
    ensures GradeOf(x).passing <==> ToInt(x) >= 60
  {
    if 0.0 <= x < 60.0 {
      assert ToInt(x) as real <= x;
    }
  }

  /** The deadline as shown: the reformatted date when the ISO timestamp
      parses (the date parser is not modelled; `reformatted` is what it
      produces), the raw text otherwise. */
  function DeadlineText(fechaLimite: string, reformatted: Option<string>): (t: string)
    ensures reformatted.Some? ==> t == reformatted.value
    ensures reformatted.None? ==> t == fechaLimite
  {
    reformatted.OrElse(fechaLimite)
  }

  datatype StatusStyle = PendingStyle | DeliveredStyle | OtherStatusStyle
  datatype TypeStyle = QuizStyle | ExamStyle | TaskStyle | OtherTypeStyle

  /** `StatusBadge`'s colours, chosen on the lower-cased status. */
  function StatusStyleOf(status: string): StatusStyle
  {
    var l := Lowercase(status);
    if l == "pendiente" then PendingStyle else if l == "entregada" then DeliveredStyle else OtherStatusStyle
  }

  /** `TypeBadge`'s colours, chosen on the lower-cased type. */
  function TypeStyleOf(tipo: string): TypeStyle
  {
    var l := Lowercase(tipo);
    if l == "quiz" then QuizStyle else if l == "examen" then ExamStyle
    else if l == "tarea" then TaskStyle else OtherTypeStyle
  }

  /** A badge: the text in upper case and its colours. */
  datatype Badge<S> = Badge(text: string, style: S)

  /** "Descargar" needs a non-empty file URL. */
  predicate CanDownload(e: Evaluation)
  {
    e.archivoUrl.Some? && e.archivoUrl.value != ""
  }

  /** "Subir" is for pending evaluations, compared ignoring case. */
  predicate CanUpload(e: Evaluation)
  {
    EqualsIgnoreCase(e.estadoEstudiante, "pendiente")
  }

  /** `EvaluationCard`. */
  datatype EvaluationCard = EvaluationCard(
    title: string, grade: Option<Grade>, description: Option<string>, professor: string,
    deadline: string, status: Badge<StatusStyle>, kind: Badge<TypeStyle>,
    downloadEnabled: bool, uploadEnabled: bool)

  function CardOf(e: Evaluation, reformatted: Option<string>): (c: EvaluationCard)
    ensures c.grade.Some? <==> e.calificacion.Some?
    ensures c.description.Some? <==> e.descripcion.Some? && NotBlank(e.descripcion.value)
    ensures c.description.Some? ==> c.description == e.descripcion
    ensures c.professor == "Profesor: " + e.profesor
    ensures c.deadline == "Fecha Límite: " + DeadlineText(e.fechaLimite, reformatted)
    ensures c.status == Badge(Uppercase(e.estadoEstudiante), StatusStyleOf(e.estadoEstudiante))
    ensures c.kind == Badge(Uppercase(e.tipo), TypeStyleOf(e.tipo))
    ensures c.downloadEnabled <==> CanDownload(e)
    ensures c.uploadEnabled <==> CanUpload(e)
  {
    EvaluationCard(
      e.titulo,
      match e.calificacion case Some(x) => Some(GradeOf(x)) case None => None,
      match e.descripcion case Some(d) => (if NotBlank(d) then Some(d) else None) case None => None,
      "Profesor: " + e.profesor,
      "Fecha Límite: " + DeadlineText(e.fechaLimite, reformatted),
      Badge(Uppercase(e.estadoEstudiante), StatusStyleOf(e.estadoEstudiante)),
      Badge(Uppercase(e.tipo), TypeStyleOf(e.tipo)),
      CanDownload(e), CanUpload(e))
  }

  /** The upload button and the status badge agree: "Subir" is enabled
      exactly on the cards whose badge has the pending colours, although one
      compares ignoring case and the other lower-cases. */
  lemma UploadMatchesPendingBadge(e: Evaluation)
    ensures CanUpload(e) <==> StatusStyleOf(e.estadoEstudiante) == PendingStyle
  {
    LowercaseOfLower("pendiente");
    EqualsWordIgnoringCase(e.estadoEstudiante, "pendiente");
    PendingStyleIffPendiente(e.estadoEstudiante);
  }

  /** The pending colours are chosen exactly for the statuses that
      lower-case to "pendiente". */
  lemma PendingStyleIffPendiente(status: string)
    ensures StatusStyleOf(status) == PendingStyle <==> Lowercase(status) == "pendiente"
  {
  }

  /** Badge text differs from its source only in case, so it selects the
      same colours. */
  lemma {:induction false} LowercaseOfUppercase(s: string)
    ensures Lowercase(Uppercase(s)) == Lowercase(s)
  {
    var u := Uppercase(s);
    assert forall i :: 0 <= i < |s| ==> LowerChar(u[i]) == LowerChar(s[i]);
  }

  lemma BadgeTextKeepsStyle(e: Evaluation)
    ensures StatusStyleOf(Uppercase(e.estadoEstudiante)) == StatusStyleOf(e.estadoEstudiante)
    ensures TypeStyleOf(Uppercase(e.tipo)) == TypeStyleOf(e.tipo)
  {
    LowercaseOfUppercase(e.estadoEstudiante);
    LowercaseOfUppercase(e.tipo);
  }

  // ---------------------------------------------------------------------
  // The screen
  // ---------------------------------------------------------------------

  /** What `EvaluationsScreen` shows. */
  datatype EvaluationsView = Spinner | ErrorText(text: string) | NoEvaluations(text: string) | Cards(cards: seq<EvaluationCard>)

  /** The screen: loading, then the error, then the empty message, then
      one card per evaluation in the order received. `reformatted` gives
      what the date parser makes of each deadline. */
  function Render(s: EvaluationsUiState, reformatted: string -> Option<string>): (v: EvaluationsView)
    ensures v.Spinner? <==> s.isLoading
    ensures v.ErrorText? <==> !s.isLoading && s.error.Some?
    ensures v.ErrorText? ==> v.text == "Error: " + s.error.value
    ensures v.NoEvaluations? <==> !s.isLoading && s.error.None? && s.evaluations == []
    ensures v.Cards? ==> |v.cards| == |s.evaluations| > 0
    ensures v.Cards? ==> forall k :: 0 <= k < |v.cards| ==>
      v.cards[k] == CardOf(s.evaluations[k], reformatted(s.evaluations[k].fechaLimite))
  {
    if s.isLoading then Spinner
    else if s.error.Some? then ErrorText("Error: " + s.error.value)
    else if |s.evaluations| == 0 then NoEvaluations("No tienes evaluaciones asignadas.")
    else Cards(seq(|s.evaluations|, k requires 0 <= k < |s.evaluations| =>
                   CardOf(s.evaluations[k], reformatted(s.evaluations[k].fechaLimite))))
  }

  /** Every appearance of the screen reloads: whatever was shown before,
      the result depends only on the backend's answer. */
  lemma ReloadForgetsPreviousOutcome(s1: EvaluationsUiState, s2: EvaluationsUiState, session: Session,
                                     api: Call<EvaluationsResponse>)
    ensures LoadEvaluations(s1, session, api) == LoadEvaluations(s2, session, api)
  {
  }
}
