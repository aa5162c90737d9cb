/** The roster page for tax invoices: the search filter, the add-student form and the per-row billing-data edit. */
module SIIData {
  import opened Wrappers
  import opened Model
  import Seqs
  import Text
  import Store

  // ---------------------------------------------------------------- search

  /**
   * A student matches a search term when the lower-cased name contains the
   * lower-cased term, or when the student has a full name and the lower-cased
   * full name contains it.
   */
  predicate Matches(st: Student, term: string) {
    Text.Includes(Text.ToLower(st.name), Text.ToLower(term))
    || (st.fullName != "" && Text.Includes(Text.ToLower(st.fullName), Text.ToLower(term)))
  }

  function MatchesTerm(term: string): Student -> bool {
    (st: Student) => Matches(st, term)
  }

  /** `filteredStudents`: the matching students, in roster order. */
  function FilteredStudents(students: seq<Student>, term: string): (r: seq<Student>)
    ensures forall st :: st in r <==> st in students && Matches(st, term)
    ensures Seqs.IsSubsequence(r, students)
  {
    Seqs.Filter(students, MatchesTerm(term))
  }

  /** An empty search shows the whole roster. */
  lemma EmptyTermShowsAll(students: seq<Student>)
    ensures FilteredStudents(students, "") == students
  {
    forall st | st in students ensures Matches(st, "") {
      Text.IncludesEmpty(Text.ToLower(st.name));
    }
    Seqs.FilterAll(students, MatchesTerm(""));
  }

  /** A student without a full name is found only through the name. */
  lemma NoFullNameMatchesOnName(st: Student, term: string)
    requires st.fullName == ""
    ensures Matches(st, term) <==> exists i :: Text.OccursAt(Text.ToLower(st.name), Text.ToLower(term), i)
  {
    Text.IncludesIff(Text.ToLower(st.name), Text.ToLower(term));
  }

  /** The search ignores the case of the term: a lower-cased term finds the same students. */
  lemma SearchIgnoresTermCase(students: seq<Student>, term: string)
    ensures FilteredStudents(students, Text.ToLower(term)) == FilteredStudents(students, term)
  {
    Text.ToLowerIdempotent(term);
    assert forall st :: Matches(st, Text.ToLower(term)) == Matches(st, term);
    Seqs.FilterSame(students, MatchesTerm(Text.ToLower(term)), MatchesTerm(term));
  }

  // ---------------------------------------------------------------- add a student

  datatype StudentForm = StudentForm(
    name: string, fullName: string, address: string, phone: string, email: string, defaultRate: Amount)

  const DefaultStudentForm: StudentForm := StudentForm("", "", "", "", "", 35000)

  /** The form and whether it is open. */
  datatype AddUi = AddUi(form: StudentForm, isAdding: bool)

  /** The record the form sends: it has no duration, and the store marks it active and gives it its id. */
  function StudentFromForm(f: StudentForm): Student {
    Student(0, f.name, f.fullName, f.address, f.phone, f.email, f.defaultRate, "", false)
  }

  /** `handleAdd`: nothing happens while the name is empty; otherwise the student is added and the form reset and closed. */
  function HandleAdd(s: AppState, ui: AddUi, id: Id): (r: (AppState, AddUi))
    requires Seqs.FreshIn(id, s.studentDb, StudentId)
    ensures ui.form.name == "" ==> r == (s, ui)
    ensures ui.form.name != "" ==>
      r.1 == AddUi(DefaultStudentForm, false)
      && r.0 == s.(studentDb := s.studentDb + [Student(id, ui.form.name, ui.form.fullName, ui.form.address,
                                                        ui.form.phone, ui.form.email, ui.form.defaultRate, "", true)])
  {
    if ui.form.name == "" then (s, ui)
    else (Store.AddStudentToDb(s, StudentFromForm(ui.form), id), AddUi(DefaultStudentForm, false))
  }

  /** A student just added is found by a search for its own name. */
  lemma AddedStudentIsFound(s: AppState, ui: AddUi, id: Id)
    requires ui.form.name != "" && Seqs.FreshIn(id, s.studentDb, StudentId)
    ensures var r := HandleAdd(s, ui, id).0;
      r.studentDb[|r.studentDb| - 1] in FilteredStudents(r.studentDb, ui.form.name)
  {
    var r := HandleAdd(s, ui, id).0;
    var st := r.studentDb[|r.studentDb| - 1];
    assert Text.StartsWith(Text.ToLower(st.name), Text.ToLower(ui.form.name)) by {
      assert Text.ToLower(st.name)[..|Text.ToLower(ui.form.name)|] == Text.ToLower(st.name);
    }
  }

  // ---------------------------------------------------------------- row edit

  /** The billing fields a row edits. */
  datatype RowForm = RowForm(fullName: string, address: string, phone: string, email: string)

  /** The form a row opens with: the student's current billing fields. */
  function RowFormFor(st: Student): (f: RowForm)
    ensures f.fullName == st.fullName && f.address == st.address && f.phone == st.phone && f.email == st.email
  {
    RowForm(st.fullName, st.address, st.phone, st.email)
  }

  /** `handleSave`: the row sends its four billing fields and nothing else. */
  function RowSavePatch(f: RowForm): (p: StudentPatch)
    ensures p.fullName == Some(f.fullName) && p.address == Some(f.address)
    ensures p.phone == Some(f.phone) && p.email == Some(f.email)
    ensures p.name.None? && p.defaultRate.None? && p.duration.None? && p.active.None?
  {
    StudentPatch(None, Some(f.fullName), Some(f.address), Some(f.phone), Some(f.email), None, None, None)
  }

  /** A row save rewrites that student's billing fields and keeps its id, name, rate, duration and active flag. */
  lemma RowSaveKeepsIdentity(s: AppState, f: RowForm, k: nat)
    requires k < |s.studentDb|
    ensures var st := s.studentDb[k];
      var r := Store.UpdateStudentInDb(s, st.id, RowSavePatch(f));
      r.studentDb[k] == st.(fullName := f.fullName, address := f.address, phone := f.phone, email := f.email)
  {
  }

  /** Saving a row without editing it leaves the roster as it was. */
  lemma UneditedRowSaveIsNoOp(s: AppState, k: nat)
    requires k < |s.studentDb|
    requires forall j :: 0 <= j < |s.studentDb| && s.studentDb[j].id == s.studentDb[k].id ==> s.studentDb[j] == s.studentDb[k]
    ensures var st := s.studentDb[k];
      Store.UpdateStudentInDb(s, st.id, RowSavePatch(RowFormFor(st))) == s
  {
    var st := s.studentDb[k];
    var r := Store.UpdateStudentInDb(s, st.id, RowSavePatch(RowFormFor(st)));
    assert r.studentDb == s.studentDb;
  }
}
