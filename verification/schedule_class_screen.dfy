/** The class-scheduling form: the date and time pickers' text, the student
    selection with its select-all toggle, and the submit button. */
module ScheduleClassScreen {
  import opened Outcomes
  import opened Text
  import opened Records
  import opened Collections
  import opened Api
  import opened ScheduleClassViewModel

  // ---------------------------------------------------------------------
  // Pickers
  // ---------------------------------------------------------------------

  /** The date picker's callback: `"%04d-%02d-%02d"` of the year, the
      zero-based month plus one, and the day. Any date the picker can
      produce (a year of at most four digits) is in backend form, and its
      fields read back as the picked numbers. */
  function PickedDate(year: nat, month: nat, day: nat): (r: string)
    ensures year < 10000 && month < 12 && 1 <= day <= 31 ==>
      && |r| == 10
      && IsBackendDate(r)
      && DigitsValue(r[..4]) == year && DigitsValue(r[5..7]) == month + 1 && DigitsValue(r[8..]) == day
  {
    var y, m, d := ZeroPad(year, 4), ZeroPad(month + 1, 2), ZeroPad(day, 2);
    var r := y + "-" + m + "-" + d;
    if year < 10000 && month < 12 && 1 <= day <= 31 then
      assert Pow10(4) == 10000 by { assert Pow10(2) == 100; }
      PadWidth(year, 4);
      PadWidth(month + 1, 2);
      PadWidth(day, 2);
      DateTextFields(y, m, d);
      r
    else
      r
  }

  /** The time picker's callback: `"%02d:%02d"`. Any time the picker can
      produce is in backend form, and its fields read back as the picked
      numbers. */
  function PickedTime(hour: nat, minute: nat): (r: string)
    ensures hour < 24 && minute < 60 ==>
      && |r| == 5
      && IsBackendTime(r)
      && DigitsValue(r[..2]) == hour && DigitsValue(r[3..]) == minute
  {
    var h, m := ZeroPad(hour, 2), ZeroPad(minute, 2);
    var r := h + ":" + m;
    if hour < 24 && minute < 60 then
      assert Pow10(2) == 100;
      PadWidth(hour, 2);
      PadWidth(minute, 2);
      assert r[..2] == h && r[3..] == m;
      r
    else
      r
  }

  /** The fields of a date text sit at fixed positions. */
  lemma DateTextFields(y: string, m: string, d: string)
    requires |y| == 4 && |m| == 2 && |d| == 2
    ensures var r := y + "-" + m + "-" + d;
      |r| == 10 && r[..4] == y && r[4] == '-' && r[5..7] == m && r[7] == '-' && r[8..] == d
  {
    var r := y + "-" + m + "-" + d;
    assert r[..4] == y;
    assert r[5..7] == m;
    assert r[8..] == d;
  }

  /** A zero-padded number below `10^width` takes exactly `width` digits. */
  lemma PadWidth(n: nat, width: nat)
    requires width >= 1 && n < Pow10(width)
    ensures |ZeroPad(n, width)| == width
  {
    NatToStringLength(n, Pow10(width), width);
  }

  /** A picked date is sent unchanged: the backend formatting passes any
      date in backend form through, whatever the calendar parser makes of it. */
  lemma PickedDateIsBackendDate(year: nat, month: nat, day: nat)
    requires year < 10000 && month < 12 && 1 <= day <= 31
    ensures IsBackendDate(PickedDate(year, month, day))
    ensures forall reparsed :: FormatDateForBackend(PickedDate(year, month, day), reparsed) == PickedDate(year, month, day)
  {
  }

  /** A picked time is sent unchanged. */
  lemma PickedTimeIsBackendTime(hour: nat, minute: nat)
    requires hour < 24 && minute < 60
    ensures IsBackendTime(PickedTime(hour, minute))
    ensures forall reparsed :: FormatTimeForBackend(PickedTime(hour, minute), reparsed) == PickedTime(hour, minute)
  {
  }

  // ---------------------------------------------------------------------
  // Student selection
  // ---------------------------------------------------------------------

  /** The ids of the listed students, in list order. */
  function StudentIds(students: seq<Student>): (ids: seq<int>)
    ensures |ids| == |students|
    ensures forall k :: 0 <= k < |students| ==> ids[k] == students[k].id
  {
    seq(|students|, k requires 0 <= k < |students| => students[k].id)
  }

  /** Checking a student: removes its id when selected, adds it at the end
      otherwise; the selection set's insertion order is kept. */
  function ToggleStudent(selected: seq<int>, id: int): (r: seq<int>)
    ensures forall x :: x in r <==> (x in selected <==> x != id)
    ensures Distinct(selected) ==> Distinct(r)
    ensures id !in selected ==> r == selected + [id]
  {
    if id in selected then Remove(selected, id)
    else
      assert forall k :: 0 <= k < |selected| ==> selected[k] != id;
      selected + [id]
  }

  /** Checking the same student twice restores the selection as a set, and
      exactly when it was not selected to begin with. */
  lemma ToggleTwice(selected: seq<int>, id: int)
    ensures forall x :: x in ToggleStudent(ToggleStudent(selected, id), id) <==> x in selected
    ensures id !in selected && Distinct(selected) ==> ToggleStudent(ToggleStudent(selected, id), id) == selected
  {
    if id !in selected {
      RemoveAppended(selected, id);
    }
  }

  /** "Seleccionar todos": clears the selection when it is as large as the
      student list, otherwise selects every listed student. */
  function SelectAll(selected: seq<int>, students: seq<Student>): (r: seq<int>)
    ensures Distinct(r)
    ensures |selected| == |students| ==> r == []
    ensures |selected| != |students| ==> forall x :: x in r <==> x in StudentIds(students)
  {
    if |selected| == |students| then [] else Dedup(StudentIds(students))
  }

  /** The selection only ever holds listed students, each once. */
  predicate SelectionValid(selected: seq<int>, students: seq<Student>)
  {
    Distinct(selected) && forall x :: x in selected ==> x in StudentIds(students)
  }

  /** A list without repetitions has as many distinct elements as entries. */
  lemma {:induction false} DistinctCardinality(xs: seq<int>)
    requires Distinct(xs)
    ensures |set x | x in xs| == |xs|
    decreases |xs|
  {
    if |xs| > 0 {
      var rest := xs[..|xs| - 1];
      assert Distinct(rest);
      DistinctCardinality(rest);
      assert xs == rest + [xs[|xs| - 1]];
      assert xs[|xs| - 1] !in rest;
      assert (set x | x in xs) == (set x | x in rest) + {xs[|xs| - 1]};
    }
  }

  /** A subset as large as its superset is the whole of it. */
  lemma SubsetSameSize(a: set<int>, b: set<int>)
    requires a <= b && |a| == |b|
    ensures a == b
  {
    assert b == a + (b - a);
  }

  /** With distinct student ids and a valid selection, the size test of
      "Seleccionar todos" means what it is meant to: the selection is
      cleared exactly when every student is already selected. */
  lemma SelectAllClearsWhenAllSelected(selected: seq<int>, students: seq<Student>)
    requires Distinct(StudentIds(students)) && SelectionValid(selected, students)
    ensures |selected| == |students| <==> forall x :: x in StudentIds(students) ==> x in selected
  {
    var ids := StudentIds(students);
    DistinctCardinality(selected);
    DistinctCardinality(ids);
    var a, b := set x | x in selected, set x | x in ids;
    forall x | x in a ensures x in b {
    }
    if |selected| == |students| {
      SubsetSameSize(a, b);
      forall x | x in ids ensures x in selected {
        assert x in b;
      }
    }
    if forall x :: x in ids ==> x in selected {
      forall x | x in b ensures x in a {
      }
      assert a == b;
    }
  }

  /** Toggling a listed student and pressing "Seleccionar todos" keep the
      selection valid. */
  lemma SelectionStaysValid(selected: seq<int>, students: seq<Student>, k: nat)
    requires SelectionValid(selected, students) && k < |students|
    ensures SelectionValid(ToggleStudent(selected, students[k].id), students)
    ensures SelectionValid(SelectAll(selected, students), students)
  {
    assert students[k].id == StudentIds(students)[k];
  }

  // ---------------------------------------------------------------------
  // Submitting
  // ---------------------------------------------------------------------

  /** The form's contents. The screen has no field for the description. */
  datatype ScheduleForm = ScheduleForm(
    className: string, professor: Option<Professor>, classDate: string, classTime: string,
    meetLink: string, selected: seq<int>)

  /** "AGREGAR CLASE" is enabled once date, time and name are filled in and
      a professor is chosen. */
  predicate CanSchedule(f: ScheduleForm)
  {
    NotBlank(f.classDate) && NotBlank(f.classTime) && NotBlank(f.className) && f.professor.Some?
  }

  /** The click handler: nothing without a professor; otherwise the view
      model's `createClass` with the professor's full name, an empty
      description and the selection in order. */
  function Submit(f: ScheduleForm): (args: Option<ClassArgs>)
    ensures args.Some? <==> f.professor.Some?
    ensures args.Some? ==> args.value == ClassArgs(f.className, f.classDate, f.classTime, "", f.meetLink,
                                                    f.professor.value.fullName, f.selected)
  {
    match f.professor
    case None => None
    case Some(p) => Some(ClassArgs(f.className, f.classDate, f.classTime, "", f.meetLink, p.fullName, f.selected))
  }

  /** End to end: a class scheduled through the pickers reaches the backend
      with the picked date and time verbatim, whatever the calendar parser
      would have said. */
  lemma PickedValuesReachBackend(
    f: ScheduleForm, year: nat, month: nat, day: nat, hour: nat, minute: nat,
    s: ScheduleState, session: Session, reparsedDate: Option<string>, reparsedTime: Option<string>,
    api: Call<CreateClassResponse>)
    requires year < 10000 && month < 12 && 1 <= day <= 31 && hour < 24 && minute < 60
    requires f.classDate == PickedDate(year, month, day) && f.classTime == PickedTime(hour, minute)
    requires CanSchedule(f) && session.Some?
    ensures var sent := CreateClass(s, session, Submit(f).value, reparsedDate, reparsedTime, api).sent;
      && sent.Some?
      && sent.value.fecha == PickedDate(year, month, day)
      && sent.value.hora == PickedTime(hour, minute)
      && sent.value.profesor == Some(f.professor.value.fullName)
      && sent.value.estudiantes == f.selected
      && sent.value.descripcion == ""
  {
    PickedDateIsBackendDate(year, month, day);
    PickedTimeIsBackendTime(hour, minute);
  }
}
