/** The records the piano-class table builds before calling the store: new class, status toggle, row edit. */
module PianoClassesTable {
  import opened Wrappers
  import opened Model
  import Seqs
  import Store

  /** The "new class" form. */
  datatype ClassForm = ClassForm(studentName: string, rate: Amount, count: int, duration: string, status: Status)

  const DefaultClassForm: ClassForm := ClassForm("", 35000, 4, "45 min", Pendiente)

  /** `{ ...newClass, total }` with `total = rate * count`; the store assigns the id. */
  function ClassFromForm(f: ClassForm): (c: PianoClass)
    ensures c.total == c.rate * c.count
    ensures c.studentName == f.studentName && c.rate == f.rate && c.count == f.count
    ensures c.duration == f.duration && c.status == f.status
    ensures c.studentId.None? && c.paymentDate.None?
  {
    PianoClass(0, f.studentName, None, f.rate, f.count, f.rate * f.count, f.duration, f.status, None)
  }

  /** `handleAdd`: adds the class built from the form, then resets the form. */
  function HandleAdd(s: AppState, monthIndex: nat, f: ClassForm, id: Id): (r: (AppState, ClassForm))
    requires monthIndex < |s.months|
    requires Seqs.FreshIn(id, s.months[monthIndex].pianoClasses, ClassId)
    ensures r.1 == DefaultClassForm
    ensures r.0 == Store.AddPianoClass(s, monthIndex, ClassFromForm(f), id)
    ensures TotalIncome(r.0.months) == TotalIncome(s.months) + f.rate * f.count
  {
    (Store.AddPianoClass(s, monthIndex, ClassFromForm(f), id), DefaultClassForm)
  }

  // ---------------------------------------------------------------- status toggle

  /** `toggleStatus`: 'Pendiente' becomes 'Al día' paid today; anything else becomes 'Pendiente' with a null date. */
  function TogglePatch(c: PianoClass, today: string): (p: ClassPatch)
    ensures c.status == Pendiente ==> p.status == Some(AlDia) && p.paymentDate == Some(Some(today))
    ensures c.status != Pendiente ==> p.status == Some(Pendiente) && p.paymentDate == Some(None)
    ensures p.studentName.None? && p.rate.None? && p.count.None? && p.total.None? && p.duration.None?
  {
    if c.status == Pendiente then
      ClassPatch(None, None, None, None, None, Some(AlDia), Some(Some(today)))
    else
      ClassPatch(None, None, None, None, None, Some(Pendiente), Some(None))
  }

  /** The class as the store leaves it after one toggle. */
  function Toggled(c: PianoClass, today: string): (c': PianoClass)
    ensures c' == c.(status := c'.status, paymentDate := c'.paymentDate)
  {
    MergeClass(c, TogglePatch(c, today))
  }

  /** Toggling twice from 'Pendiente' ends 'Pendiente' with a null payment date, all else as before. */
  lemma ToggleTwice(c: PianoClass, today1: string, today2: string)
    requires c.status == Pendiente
    ensures Toggled(Toggled(c, today1), today2) == c.(paymentDate := None)
  {
  }

  /** The toggle's effect on the store: the first class with that id changes status, payment date only. */
  lemma ToggleInStore(s: AppState, monthIndex: nat, k: nat, today: string)
    requires monthIndex < |s.months| && k < |s.months[monthIndex].pianoClasses|
    requires Seqs.FindIndex(s.months[monthIndex].pianoClasses, ClassId, s.months[monthIndex].pianoClasses[k].id) == k
    ensures var c := s.months[monthIndex].pianoClasses[k];
      var r := Store.UpdatePianoClass(s, monthIndex, c.id, TogglePatch(c, today));
      r.months[monthIndex].pianoClasses[k] == Toggled(c, today)
      && TotalIncome(r.months) == TotalIncome(s.months)
  {
    var c := s.months[monthIndex].pianoClasses[k];
    Store.UpdateWithoutTotalKeepsIncome(s, monthIndex, c.id, TogglePatch(c, today));
  }

  // ---------------------------------------------------------------- row edit

  /** The row's edit form. */
  datatype EditForm = EditForm(studentName: string, rate: Amount, count: int, duration: string, paymentDate: string)

  /** The form a row opens with: duration '1 hora' and payment date '' when they are absent. */
  function EditFormFor(c: PianoClass): (e: EditForm)
    ensures e.studentName == c.studentName && e.rate == c.rate && e.count == c.count
    ensures e.duration == (if c.duration == "" then "1 hora" else c.duration)
    ensures e.paymentDate == (if c.paymentDate.Some? then c.paymentDate.value else "")
  {
    EditForm(c.studentName, c.rate, c.count, if c.duration == "" then "1 hora" else c.duration,
             c.paymentDate.GetOr(""))
  }

  /** `handleSave`: the edited fields plus `total` recomputed from the edited rate and count. */
  function SavePatch(e: EditForm): (p: ClassPatch)
    ensures p.total == Some(e.rate * e.count)
    ensures p.studentName == Some(e.studentName) && p.rate == Some(e.rate) && p.count == Some(e.count)
    ensures p.duration == Some(e.duration) && p.paymentDate == Some(Some(e.paymentDate))
    ensures p.status.None?
  {
    ClassPatch(Some(e.studentName), Some(e.rate), Some(e.count), Some(e.rate * e.count),
               Some(e.duration), None, Some(Some(e.paymentDate)))
  }

  /** After a row save the edited class is consistent again: its total is its rate times its count. */
  lemma SaveMakesTotalConsistent(s: AppState, monthIndex: nat, classId: Id, e: EditForm)
    requires monthIndex < |s.months|
    ensures var cs := s.months[monthIndex].pianoClasses;
      var k := Seqs.FindIndex(cs, ClassId, classId);
      var r := Store.UpdatePianoClass(s, monthIndex, classId, SavePatch(e));
      k >= 0 ==> var c' := r.months[monthIndex].pianoClasses[k];
        c'.total == c'.rate * c'.count && c'.status == cs[k].status && c'.id == classId
  {
  }

  // ---------------------------------------------------------------- a row's life

  /** A mounted row: the class it shows and the edit form it holds in its own state. */
  datatype Row = Row(cls: PianoClass, form: EditForm)

  /** A row mounts with the form built from the class it first shows. */
  function MountRow(c: PianoClass): (row: Row)
    ensures row.cls == c && row.form == EditFormFor(c)
  {
    Row(c, EditFormFor(c))
  }

  /** The row's save: its form merged over the class it currently shows. */
  function SaveRow(row: Row): (c': PianoClass)
    ensures c' == row.cls.(studentName := row.form.studentName, rate := row.form.rate, count := row.form.count,
                           total := row.form.rate * row.form.count, duration := row.form.duration,
                           paymentDate := Some(row.form.paymentDate))
    ensures c'.total == c'.rate * c'.count && c'.status == row.cls.status
  {
    MergeClass(row.cls, SavePatch(row.form))
  }

  /** As written: a toggle gives the row its new class, but the form keeps what it was given at mount. */
  function ToggleRowAsWritten(row: Row, today: string): (r: Row)
    ensures r.cls == Toggled(row.cls, today) && r.form == row.form
  {
    row.(cls := Toggled(row.cls, today))
  }

  /** Marking an unpaid class paid and then saving its row, as written, overwrites the new payment date with ''. */
  lemma StaleFormWipesPaymentDate(c: PianoClass, today: string)
    requires c.status == Pendiente && c.paymentDate.None? && today != ""
    ensures Toggled(c, today).paymentDate == Some(today)
    ensures var saved := SaveRow(ToggleRowAsWritten(MountRow(c), today));
      saved.status == AlDia && saved.paymentDate == Some("") && saved.paymentDate != Toggled(c, today).paymentDate
  {
  }

  /** Corrected: a toggle re-reads the form from the row's new class. */
  function ToggleRow(row: Row, today: string): (r: Row)
    ensures r.cls == Toggled(row.cls, today) && r.form == EditFormFor(r.cls)
  {
    var c := Toggled(row.cls, today);
    Row(c, EditFormFor(c))
  }

  /** With the form re-read, a save after a toggle keeps the status and the payment date the toggle set. */
  lemma FreshFormKeepsToggle(row: Row, today: string)
    ensures var t := Toggled(row.cls, today);
      var saved := SaveRow(ToggleRow(row, today));
      saved.status == t.status && saved.paymentDate == Some(t.paymentDate.GetOr(""))
    ensures row.cls.status == Pendiente ==> SaveRow(ToggleRow(row, today)).paymentDate == Some(today)
  {
  }
}
