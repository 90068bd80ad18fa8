/** The classes view model and screen: the user's classes split into
    ongoing, upcoming and completed by their status, and the screen that
    shows them. */
module ScheduledClasses {
  import opened Outcomes
  import opened Text
  import opened Records
  import opened Api
  import opened Collections
  import AuthRepository

  /** `ClassesUiState`. */
  datatype ClassesUiState = ClassesUiState(
    isLoading: bool, ongoing: seq<Clase>, upcoming: seq<Clase>, completed: seq<Clase>, error: Option<string>)

  const Initial := ClassesUiState(true, [], [], [], None)

  predicate IsOngoing(c: Clase)
  {
    EqualsIgnoreCase(c.estado, "activa")
  }

  predicate IsUpcoming(c: Clase)
  {
    EqualsIgnoreCase(c.estado, "programada")
  }

  predicate IsCompleted(c: Clase)
  {
    !IsOngoing(c) && !IsUpcoming(c)
  }

  /** The state built from a successful load. */
  function Classified(classes: seq<Clase>): (s: ClassesUiState)
    ensures !s.isLoading && s.error.None?
    ensures forall c :: c in s.ongoing <==> c in classes && IsOngoing(c)
    ensures forall c :: c in s.upcoming <==> c in classes && IsUpcoming(c)
    ensures forall c :: c in s.completed <==> c in classes && IsCompleted(c)
  {
    ClassesUiState(false, Filter(classes, IsOngoing), Filter(classes, IsUpcoming), Filter(classes, IsCompleted), None)
  }

  /** No status is both `activa` and `programada`. */
  lemma StatusesExclusive(c: Clase)
    ensures !(IsOngoing(c) && IsUpcoming(c))
  {
    if IsOngoing(c) && IsUpcoming(c) {
      EqualsIgnoreCaseIsLowercaseEquality(c.estado, "activa");
      EqualsIgnoreCaseIsLowercaseEquality(c.estado, "programada");
    }
  }

  predicate IsPending(c: Clase)
  {
    !IsCompleted(c)
  }

  predicate IsNotOngoing(c: Clase)
  {
    !IsOngoing(c)
  }

  /** The three lists are a partition of the loaded classes: together they
      are a permutation of them, so every class appears in exactly one
      list, and each list keeps the order of the response. */
  lemma {:induction false} ClassifiedIsPartition(classes: seq<Clase>)
    ensures var s := Classified(classes);
      multiset(s.ongoing) + multiset(s.upcoming) + multiset(s.completed) == multiset(classes)
    ensures IsSubsequence(Classified(classes).ongoing, classes)
    ensures IsSubsequence(Classified(classes).upcoming, classes)
    ensures IsSubsequence(Classified(classes).completed, classes)
  {
    FilterPartition(classes, IsCompleted, IsPending);
    FilterPartition(Filter(classes, IsPending), IsOngoing, IsNotOngoing);
    PendingSplit(classes);
  }

  /** Among the classes that are not completed, the ongoing ones are the
      ongoing ones of the whole list, and the others are the upcoming ones. */
  lemma {:induction false} PendingSplit(classes: seq<Clase>)
    ensures Filter(Filter(classes, IsPending), IsOngoing) == Filter(classes, IsOngoing)
    ensures Filter(Filter(classes, IsPending), IsNotOngoing) == Filter(classes, IsUpcoming)
    decreases |classes|
  {
    if |classes| > 0 {
      var c := classes[0];
      var head := if IsPending(c) then [c] else [];
      StatusesExclusive(c);
      PendingSplit(classes[1..]);
      assert Filter(classes, IsPending) == head + Filter(classes[1..], IsPending);
      FilterAppend(head, Filter(classes[1..], IsPending), IsOngoing);
      FilterAppend(head, Filter(classes[1..], IsPending), IsNotOngoing);
    }
  }

  /** The first step of `loadUserClasses`: loading, any old error cleared,
      the lists kept. */
  function StartLoad(s: ClassesUiState): (t: ClassesUiState)
    ensures t.isLoading && t.error.None?
    ensures t.ongoing == s.ongoing && t.upcoming == s.upcoming && t.completed == s.completed
  {
    s.(isLoading := true, error := None)
  }

  /** The last step of `loadUserClasses`. A `Loading` result has no branch
      in the source, so it leaves the state as it was. */
  function FinishLoad(s: ClassesUiState, result: Result<seq<Clase>>): (t: ClassesUiState)
    ensures result.Success? ==> t == Classified(result.data)
    ensures result.Error? ==> t == ClassesUiState(false, [], [], [], Some(result.message))
    ensures result.Loading? ==> t == s
  {
    match result
    case Success(classes) => Classified(classes)
    case Error(message) => ClassesUiState(false, [], [], [], Some(message))
    case Loading => s
  }

  /** `loadUserClasses` as one step. Because the repository never answers
      `Loading`, the indicator always goes away. */
  function LoadUserClasses(s: ClassesUiState, session: Session, api: Call<ClassesResponse>): (t: ClassesUiState)
    ensures !t.isLoading
    ensures t.error.Some? <==> !(session.Some? && api.Returned? && api.body.success)
    ensures t.error.None? ==> t == Classified(api.body.clases)
  {
    FinishLoad(StartLoad(s), AuthRepository.GetUserClasses(session, api).result)
  }

  /** An error is never shown next to stale classes. */
  predicate ErrorClearsLists(s: ClassesUiState)
  {
    s.error.Some? ==> s.ongoing == [] && s.upcoming == [] && s.completed == []
  }

  /** Every state reached by a sequence of loads from the initial state
      keeps errors and classes apart. */
  lemma {:induction false} LoadsKeepErrorsApart(s: ClassesUiState, session: Session, calls: seq<Call<ClassesResponse>>)
    requires ErrorClearsLists(s)
    ensures ErrorClearsLists(LoadAll(s, session, calls))
    decreases |calls|
  {
    if |calls| > 0 {
      LoadsKeepErrorsApart(LoadUserClasses(s, session, calls[0]), session, calls[1..]);
    }
  }

  function LoadAll(s: ClassesUiState, session: Session, calls: seq<Call<ClassesResponse>>): ClassesUiState
    decreases |calls|
  {
    if |calls| == 0 then s else LoadAll(LoadUserClasses(s, session, calls[0]), session, calls[1..])
  }

  // ---------------------------------------------------------------------
  // Screen
  // ---------------------------------------------------------------------

  /** One titled section of the class list. */
  datatype Section = Section(title: string, classes: seq<Clase>)

  /** What `ScheduledClassesScreen` shows. */
  datatype ClassesView = Spinner | ErrorText(text: string) | NoClasses | Sections(sections: seq<Section>)

  /** A section is shown only when it has classes. */
  function SectionIf(title: string, classes: seq<Clase>): seq<Section>
  {
    if |classes| == 0 then [] else [Section(title, classes)]
  }

  function AllClasses(sections: seq<Section>): seq<Clase>
    decreases |sections|
  {
    if |sections| == 0 then [] else sections[0].classes + AllClasses(sections[1..])
  }

  /** The screen: loading first, then the error, then the empty message,
      then the sections in a fixed order. */
  function Render(s: ClassesUiState): (v: ClassesView)
    ensures s.isLoading <==> v.Spinner?
    ensures !s.isLoading && s.error.Some? ==> v == ErrorText("Error: " + s.error.value)
    ensures v.NoClasses? <==> !s.isLoading && s.error.None? && s.ongoing + s.upcoming + s.completed == []
    ensures v.Sections? ==> forall k :: 0 <= k < |v.sections| ==> |v.sections[k].classes| > 0
  {
    if s.isLoading then Spinner
    else if s.error.Some? then ErrorText("Error: " + s.error.value)
    else if |s.ongoing| == 0 && |s.upcoming| == 0 && |s.completed| == 0 then NoClasses
    else Sections(SectionIf("En Curso", s.ongoing) + SectionIf("Próximas", s.upcoming)
                  + SectionIf("Historial (Completadas)", s.completed))
  }

  /** The sections list every class of the state exactly once: ongoing,
      then upcoming, then completed. */
  lemma SectionsListEveryClass(s: ClassesUiState)
    requires Render(s).Sections?
    ensures AllClasses(Render(s).sections) == s.ongoing + s.upcoming + s.completed
  {
    var a := SectionIf("En Curso", s.ongoing);
    var b := SectionIf("Próximas", s.upcoming);
    var c := SectionIf("Historial (Completadas)", s.completed);
    assert Render(s).sections == a + (b + c);
    AllClassesAppend(a, b + c);
    AllClassesAppend(b, c);
    SectionIfClasses("En Curso", s.ongoing);
    SectionIfClasses("Próximas", s.upcoming);
    SectionIfClasses("Historial (Completadas)", s.completed);
  }

  /** A section shown only when non-empty lists exactly its classes. */
  lemma SectionIfClasses(title: string, classes: seq<Clase>)
    ensures AllClasses(SectionIf(title, classes)) == classes
  {
    if |classes| > 0 {
      assert AllClasses(SectionIf(title, classes)) == classes + AllClasses([]);
    }
  }

  lemma {:induction false} AllClassesAppend(xs: seq<Section>, ys: seq<Section>)
    ensures AllClasses(xs + ys) == AllClasses(xs) + AllClasses(ys)
    decreases |xs|
  {
    if |xs| > 0 {
      assert (xs + ys)[1..] == xs[1..] + ys;
      AllClassesAppend(xs[1..], ys);
    } else {
      assert xs + ys == ys;
    }
  }

  // ---------------------------------------------------------------------
  // Status chip
  // ---------------------------------------------------------------------

  datatype ChipStyle = ActiveChip | ScheduledChip | CompletedChip | CancelledChip | OtherChip

  /** `StatusChip`: the colour chosen by the lower-cased status. */
  function ChipStyleOf(status: string): ChipStyle
  {
    var l := Lowercase(status);
    if l == "activa" then ActiveChip
    else if l == "programada" then ScheduledChip
    else if l == "completada" then CompletedChip
    else if l == "cancelada" then CancelledChip
    else OtherChip
  }

  /** The chip's label: the status with its first letter capitalised. It
      differs from the status only in case, so it names the same style. */
  function ChipLabel(status: string): (t: string)
    ensures Lowercase(t) == Lowercase(status)
    ensures ChipStyleOf(t) == ChipStyleOf(status)
  {
    var t := CapitalizeFirst(status);
    assert forall i :: 0 <= i < |t| ==> LowerChar(t[i]) == LowerChar(status[i]);
    t
  }

  lemma StatusWordsAreLowerCase()
    ensures Lowercase("activa") == "activa"
    ensures Lowercase("programada") == "programada"
  {
    LowercaseOfLower("activa");
    LowercaseOfLower("programada");
  }

  /** The active colour is chosen exactly for the statuses that lower-case
      to "activa". */
  lemma ActiveChipIffActiva(status: string)
    ensures ChipStyleOf(status) == ActiveChip <==> Lowercase(status) == "activa"
  {
  }

  /** The scheduled colour is chosen exactly for the statuses that
      lower-case to "programada". */
  lemma ScheduledChipIffProgramada(status: string)
    ensures ChipStyleOf(status) == ScheduledChip <==> Lowercase(status) == "programada"
  {
    assert "programada"[0] != "activa"[0];
  }

  /** The section a class is listed under and the colour of its chip agree,
      although one compares ignoring case and the other lower-cases. */
  lemma ChipMatchesSection(c: Clase)
    ensures IsOngoing(c) <==> ChipStyleOf(c.estado) == ActiveChip
    ensures IsUpcoming(c) <==> ChipStyleOf(c.estado) == ScheduledChip
    ensures IsCompleted(c) ==> ChipStyleOf(c.estado) in {CompletedChip, CancelledChip, OtherChip}
  {
    StatusWordsAreLowerCase();
    EqualsWordIgnoringCase(c.estado, "activa");
    EqualsWordIgnoringCase(c.estado, "programada");
    ActiveChipIffActiva(c.estado);
    ScheduledChipIffProgramada(c.estado);
  }
}
