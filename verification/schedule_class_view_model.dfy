/** The view model behind the class-scheduling form: it loads the
    professors and students to choose from, and sends a new class to the
    backend after normalising its date and time. */
module ScheduleClassViewModel {
  import opened Outcomes
  import opened Text
  import opened Records
  import opened Api

  const NoTokenMessage := "Authentication token not found."
  const UnknownError := "An unknown error occurred."

  /** The view model's five observable values. */
  datatype ScheduleState = ScheduleState(
    professors: seq<Professor>, students: seq<Student>, isLoading: bool,
    error: Option<string>, success: bool)

  const Empty := ScheduleState([], [], false, None, false)

  // ---------------------------------------------------------------------
  // Date and time normalisation
  // ---------------------------------------------------------------------

  /** The whole string matches `\d{4}-\d{2}-\d{2}`. */
  predicate IsBackendDate(s: string)
  {
    && |s| == 10
    && IsDigit(s[0]) && IsDigit(s[1]) && IsDigit(s[2]) && IsDigit(s[3]) && s[4] == '-'
    && IsDigit(s[5]) && IsDigit(s[6]) && s[7] == '-' && IsDigit(s[8]) && IsDigit(s[9])
  }

  /** The whole string matches `\d{2}:\d{2}`. */
  predicate IsBackendTime(s: string)
  {
    |s| == 5 && IsDigit(s[0]) && IsDigit(s[1]) && s[2] == ':' && IsDigit(s[3]) && IsDigit(s[4])
  }

  /** `formatDateForBackend`: a date already in backend form is sent as is;
      otherwise the long Spanish form (`dd 'de' MMMM yyyy`) is reformatted,
      and a string that does not parse is sent as is. The calendar parser
      is not modelled: `reparsed` is what it produces, `None` when it fails. */
  function FormatDateForBackend(date: string, reparsed: Option<string>): (r: string)
    ensures IsBackendDate(date) ==> r == date
    ensures !IsBackendDate(date) && reparsed.Some? ==> r == reparsed.value
    ensures reparsed.None? ==> r == date
  {
    if IsBackendDate(date) then date else reparsed.OrElse(date)
  }

  /** `formatTimeForBackend`: the same for `HH:mm`, reformatting `h:mm a`. */
  function FormatTimeForBackend(time: string, reparsed: Option<string>): (r: string)
    ensures IsBackendTime(time) ==> r == time
    ensures !IsBackendTime(time) && reparsed.Some? ==> r == reparsed.value
    ensures reparsed.None? ==> r == time
  {
    if IsBackendTime(time) then time else reparsed.OrElse(time)
  }

  // ---------------------------------------------------------------------
  // Loading the choices
  // ---------------------------------------------------------------------

  /** `loadInitialData`: professors first, then students, with the same
      header. An exception stops the sequence and its message (possibly
      null) becomes the error; a success leaves any earlier error in place. */
  function LoadInitialData(s: ScheduleState, session: Session,
                           professorsCall: Call<ProfessorsResponse>, studentsCall: Call<StudentsResponse>): (t: ScheduleState)
    ensures !t.isLoading && t.success == s.success
    ensures session.None? ==> t == s.(isLoading := false, error := Some(NoTokenMessage))
    ensures session.Some? && professorsCall.Threw? ==> t == s.(isLoading := false, error := professorsCall.message)
    ensures session.Some? && professorsCall.Returned? ==> t.professors == professorsCall.body.professors
    ensures session.Some? && professorsCall.Returned? && studentsCall.Threw? ==>
      t.students == s.students && t.error == studentsCall.message
    ensures session.Some? && professorsCall.Returned? && studentsCall.Returned? ==>
      t.students == studentsCall.body.students && t.error == s.error
  {
    match session
    case None => s.(isLoading := false, error := Some(NoTokenMessage))
    case Some(_) =>
      match professorsCall
      case Threw(message) => s.(isLoading := false, error := message)
      case Returned(professors) =>
        var withProfessors := s.(professors := professors.professors);
        match studentsCall
        case Threw(message) => withProfessors.(isLoading := false, error := message)
        case Returned(students) => withProfessors.(students := students.students, isLoading := false)
  }

  /** Professors loaded are kept whatever happens to the students' call
      afterwards: with a token and an answer from the professors' endpoint,
      the professors shown are that answer, and the students' call decides
      only the students and the error. */
  lemma ProfessorsKeptWhateverStudents(s: ScheduleState, token: string, professorsCall: Call<ProfessorsResponse>,
                                       studentsCall1: Call<StudentsResponse>, studentsCall2: Call<StudentsResponse>)
    requires professorsCall.Returned?
    ensures LoadInitialData(s, Some(token), professorsCall, studentsCall1).professors == professorsCall.body.professors
    ensures LoadInitialData(s, Some(token), professorsCall, studentsCall1).professors
         == LoadInitialData(s, Some(token), professorsCall, studentsCall2).professors
  {
  }

  // ---------------------------------------------------------------------
  // Creating a class
  // ---------------------------------------------------------------------

  /** The arguments of `createClass`. */
  datatype ClassArgs = ClassArgs(
    nombre: string, fecha: string, hora: string, descripcion: string,
    meetLink: string, profesor: string, estudiantesIds: seq<int>)

  /** The request `createClass` builds: the date and time normalised, and
      fixed values for the duration (60), topic and modality. */
  function BuildRequest(args: ClassArgs, reparsedDate: Option<string>, reparsedTime: Option<string>): (r: CreateClassRequest)
    ensures r.nombre == args.nombre && r.descripcion == args.descripcion && r.meetLink == args.meetLink
    ensures r.fecha == FormatDateForBackend(args.fecha, reparsedDate)
    ensures r.hora == FormatTimeForBackend(args.hora, reparsedTime)
    ensures r.duracion == 60 && r.tema == "General" && r.modalidad == "virtual"
    ensures r.estudiantes == args.estudiantesIds && r.profesor == Some(args.profesor)
    ensures r.tipoClase == "individual"
  {
    CreateClassRequest(args.nombre, FormatDateForBackend(args.fecha, reparsedDate),
                       FormatTimeForBackend(args.hora, reparsedTime), 60, "General", "virtual",
                       args.descripcion, "individual", args.meetLink, args.estudiantesIds, Some(args.profesor))
  }

  /** What `createClass` did: the state after it and the request it sent. */
  datatype CreateOutcome = CreateOutcome(state: ScheduleState, sent: Option<CreateClassRequest>)

  /** `createClass`: success only when the backend says so; a rejection
      shows its message or a fixed one; an exception shows its message,
      which may be null, in which case no error is shown at all. The lists
      are never touched. */
  function CreateClass(s: ScheduleState, session: Session, args: ClassArgs,
                       reparsedDate: Option<string>, reparsedTime: Option<string>,
                       api: Call<CreateClassResponse>): (o: CreateOutcome)
    ensures o.state.professors == s.professors && o.state.students == s.students
    ensures !o.state.isLoading
    ensures o.sent.Some? <==> session.Some?
    ensures o.sent.Some? ==> o.sent.value == BuildRequest(args, reparsedDate, reparsedTime)
    ensures o.state.success <==> session.Some? && api.Returned? && api.body.success
    ensures o.state.success ==> o.state.error.None?
    ensures session.None? ==> o.state.error == Some(NoTokenMessage)
    ensures session.Some? && api.Returned? && !api.body.success ==>
      o.state.error == Some(api.body.message.OrElse(UnknownError))
    ensures session.Some? && api.Threw? ==> o.state.error == api.message
  {
    var started := s.(isLoading := true, error := None, success := false);
    match session
    case None => CreateOutcome(started.(isLoading := false, error := Some(NoTokenMessage)), None)
    case Some(_) =>
      var request := BuildRequest(args, reparsedDate, reparsedTime);
      var finished :=
        match api
        case Threw(message) => started.(error := message)
        case Returned(response) =>
          if response.success then started.(success := true)
          else started.(error := Some(response.message.OrElse(UnknownError)));
      CreateOutcome(finished.(isLoading := false), Some(request))
  }

  /** After `createClass` the form shows at most one outcome: never a
      success and an error together. */
  lemma CreateClassOutcomeExclusive(s: ScheduleState, session: Session, args: ClassArgs,
                                    reparsedDate: Option<string>, reparsedTime: Option<string>,
                                    api: Call<CreateClassResponse>)
    ensures var t := CreateClass(s, session, args, reparsedDate, reparsedTime, api).state;
      !(t.success && t.error.Some?)
      && (t.success || t.error.Some? <==> !(session.Some? && api.Threw? && api.message.None?))
  {
  }
}
