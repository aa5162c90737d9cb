/** The weekly schedule page: its time slots, the per-day columns and the add/edit form. */
module Schedule {
  import opened Wrappers
  import opened Model
  import Seqs
  import Text
  import Store

  const Days: seq<string> := ["Lunes", "Martes", "Miércoles", "Jueves", "Viernes", "Sábado", "Domingo"]
  const Quarters: seq<string> := ["00", "15", "30", "45"]

  // ---------------------------------------------------------------- time slots

  /** The slot of hour `h` and quarter `q`: the two-digit hour, a colon and the minutes. */
  function Slot(h: nat, q: nat): string
    requires q < 4
  {
    Text.PadStart(Text.ToDecimal(h), 2, '0') + ":" + Quarters[q]
  }

  /** The five characters of a slot: two hour digits, a colon and two minute digits. */
  function SlotCharsOf(h: nat, q: nat): string
    requires h < 100 && q < 4
  {
    [Text.Digit(h / 10), Text.Digit(h % 10), ':', Quarters[q][0], Quarters[q][1]]
  }

  /** A slot of the day, character by character. */
  lemma SlotChars(h: nat, q: nat)
    requires h < 100 && q < 4
    ensures Slot(h, q) == SlotCharsOf(h, q)
  {
    Text.PadStartTwoDigits(h);
  }

  /** Two five-character times `HH:MM` compare by their first differing digit. */
  lemma TimeCharsOrder(a0: char, a1: char, a3: char, a4: char, b0: char, b1: char, b3: char, b4: char)
    requires a0 < b0 || (a0 == b0 && a1 < b1) || (a0 == b0 && a1 == b1 && a3 < b3)
    ensures Text.LexLess([a0, a1, ':', a3, a4], [b0, b1, ':', b3, b4])
  {
    var a, b := [a0, a1, ':', a3, a4], [b0, b1, ':', b3, b4];
    if a0 < b0 {
      Text.FirstDifferenceOrders(a, b, 0);
    } else if a1 < b1 {
      assert a[..1] == b[..1];
      Text.FirstDifferenceOrders(a, b, 1);
    } else {
      assert a[..3] == b[..3];
      Text.FirstDifferenceOrders(a, b, 3);
    }
  }

  /** An earlier hour has a smaller tens digit, or the same tens digit and a smaller units digit. */
  lemma HourDigitsOrder(h1: nat, h2: nat)
    requires h1 < h2 < 100
    ensures h1 / 10 < h2 / 10 || (h1 / 10 == h2 / 10 && h1 % 10 < h2 % 10)
  {
  }

  /** The character form of an earlier (hour, quarter) pair sorts strictly first. */
  lemma SlotCharsOrder(h1: nat, q1: nat, h2: nat, q2: nat)
    requires h1 < 100 && h2 < 100 && q1 < 4 && q2 < 4
    requires h1 < h2 || (h1 == h2 && q1 < q2)
    ensures Text.LexLess(SlotCharsOf(h1, q1), SlotCharsOf(h2, q2))
  {
    if h1 < h2 {
      HourDigitsOrder(h1, h2);
    } else {
      assert Quarters[q1][0] < Quarters[q2][0];
    }
    TimeCharsOrder(Text.Digit(h1 / 10), Text.Digit(h1 % 10), Quarters[q1][0], Quarters[q1][1],
                   Text.Digit(h2 / 10), Text.Digit(h2 % 10), Quarters[q2][0], Quarters[q2][1]);
  }

  /** Slots are ordered like (hour, quarter) pairs: an earlier pair gives a string that sorts strictly first. */
  lemma SlotOrder(h1: nat, q1: nat, h2: nat, q2: nat)
    requires h1 < 100 && h2 < 100 && q1 < 4 && q2 < 4
    requires h1 < h2 || (h1 == h2 && q1 < q2)
    ensures Text.LexLess(Slot(h1, q1), Slot(h2, q2))
  {
    SlotChars(h1, q1);
    SlotChars(h2, q2);
    SlotCharsOrder(h1, q1, h2, q2);
  }

  /** Position `k` of the slot list holds quarter `k % 4` of hour `8 + k / 4`. */
  lemma SlotIndex(k: nat)
    ensures k == 4 * (k / 4) + k % 4 && k % 4 < 4
  {
  }

  /** A list holding every slot of the day at its (hour, quarter) position. */
  ghost predicate LaysOutSlots(ts: seq<string>) {
    |ts| == 56 && forall h, q :: 8 <= h <= 21 && 0 <= q < 4 ==> ts[4 * (h - 8) + q] == Slot(h, q)
  }

  /** Each position of such a list holds the slot its index names. */
  lemma LaidOutSlotAt(ts: seq<string>, k: nat)
    requires LaysOutSlots(ts) && k < 56
    ensures ts[k] == Slot(8 + k / 4, k % 4)
  {
    SlotIndex(k);
    var h, q := 8 + k / 4, k % 4;
    assert ts[4 * (h - 8) + q] == Slot(h, q);
  }

  lemma FirstSlotChars()
    ensures SlotCharsOf(8, 0) == "08:00"
  {
    assert Text.Digit(0) == '0' && Text.Digit(8) == '8';
    assert Quarters[0] == "00";
  }

  lemma LastSlotChars()
    ensures SlotCharsOf(21, 3) == "21:45"
  {
    assert Text.Digit(2) == '2' && Text.Digit(1) == '1';
    assert Quarters[3] == "45";
  }

  /** Such a list starts at 08:00 and ends at 21:45. */
  lemma LaidOutSlotsEnds(ts: seq<string>)
    requires LaysOutSlots(ts)
    ensures ts[0] == "08:00" && ts[55] == "21:45"
  {
    LaidOutSlotAt(ts, 0);
    LaidOutSlotAt(ts, 55);
    SlotChars(8, 0);
    SlotChars(21, 3);
    FirstSlotChars();
    LastSlotChars();
  }

  /** Such a list is strictly ascending. */
  lemma LaidOutSlotsAscend(ts: seq<string>)
    requires LaysOutSlots(ts)
    ensures forall i, j :: 0 <= i < j < 56 ==> Text.LexLess(ts[i], ts[j])
  {
    forall i, j | 0 <= i < j < 56 ensures Text.LexLess(ts[i], ts[j]) {
      LaidOutSlotAt(ts, i);
      LaidOutSlotAt(ts, j);
      SlotIndex(i);
      SlotIndex(j);
      SlotOrder(8 + i / 4, i % 4, 8 + j / 4, j % 4);
    }
  }

  /** The inner loop: appends the four quarter-hour labels of hour `h`. */
  method AppendHour(prefix: seq<string>, h: nat) returns (r: seq<string>)
    ensures |r| == |prefix| + 4
    ensures r[..|prefix|] == prefix
    ensures forall q :: 0 <= q < 4 ==> r[|prefix| + q] == Slot(h, q)
  {
    r := prefix;
    for q := 0 to 4
      invariant |r| == |prefix| + q
      invariant r[..|prefix|] == prefix
      invariant forall q' :: 0 <= q' < q ==> r[|prefix| + q'] == Slot(h, q')
    {
      r := r + [Slot(h, q)];
    }
  }

  /** `timeSlots`: for each hour from 8 to 21, push its four quarter-hour slots. */
  method BuildTimeSlots() returns (timeSlots: seq<string>)
    ensures |timeSlots| == 56
    ensures forall h, q :: 8 <= h <= 21 && 0 <= q < 4 ==> timeSlots[4 * (h - 8) + q] == Slot(h, q)
    ensures timeSlots[0] == "08:00" && timeSlots[55] == "21:45"
    ensures forall i, j :: 0 <= i < j < 56 ==> Text.LexLess(timeSlots[i], timeSlots[j])
  {
    timeSlots := [];
    var i := 8;
    while i <= 21
      invariant 8 <= i <= 22
      invariant |timeSlots| == 4 * (i - 8)
      invariant forall h, q :: 8 <= h < i && 0 <= q < 4 ==> timeSlots[4 * (h - 8) + q] == Slot(h, q)
    {
      var next := AppendHour(timeSlots, i);
      forall h, q | 8 <= h <= i && 0 <= q < 4 ensures next[4 * (h - 8) + q] == Slot(h, q) {
        if h < i {
          assert 4 * (h - 8) + q < |timeSlots|;
          assert next[4 * (h - 8) + q] == next[..|timeSlots|][4 * (h - 8) + q];
        } else {
          assert 4 * (h - 8) + q == |timeSlots| + q;
        }
      }
      timeSlots := next;
      i := i + 1;
    }
    LaidOutSlotsEnds(timeSlots);
    LaidOutSlotsAscend(timeSlots);
  }

  // ---------------------------------------------------------------- day columns

  function OnDay(day: string): ScheduleEntry -> bool {
    (e: ScheduleEntry) => e.day == day
  }

  /** The comparator `a.time.localeCompare(b.time)`, by code points. */
  function TimeLe(a: ScheduleEntry, b: ScheduleEntry): bool {
    Text.LexLe(a.time, b.time)
  }

  /** A day's column: its entries, sorted by time. */
  function DayColumn(schedule: seq<ScheduleEntry>, day: string): seq<ScheduleEntry> {
    Seqs.SortBy(Seqs.Filter(schedule, OnDay(day)), TimeLe)
  }

  lemma TimeLeIsTotalOrder()
    ensures Seqs.Total(TimeLe) && Seqs.Transitive(TimeLe)
  {
    forall a: ScheduleEntry, b: ScheduleEntry ensures TimeLe(a, b) || TimeLe(b, a) {
      Text.LexLeTotal(a.time, b.time);
    }
    forall a: ScheduleEntry, b: ScheduleEntry, c: ScheduleEntry | TimeLe(a, b) && TimeLe(b, c) ensures TimeLe(a, c) {
      Text.LexLeTransitive(a.time, b.time, c.time);
    }
  }

  /** A column shows exactly the entries of its day, each as often as it is stored, ordered by time. */
  lemma DayColumnFacts(schedule: seq<ScheduleEntry>, day: string)
    ensures var col := DayColumn(schedule, day);
      Seqs.SortedBy(col, TimeLe)
      && (forall e :: e in col <==> e in schedule && e.day == day)
      && multiset(col) == multiset(Seqs.Filter(schedule, OnDay(day)))
  {
    TimeLeIsTotalOrder();
    Seqs.SortSorted(Seqs.Filter(schedule, OnDay(day)), TimeLe);
    var col := DayColumn(schedule, day);
    var f := Seqs.Filter(schedule, OnDay(day));
    forall e ensures e in col <==> e in f {
      assert e in col <==> e in multiset(col);
      assert e in f <==> e in multiset(f);
    }
  }

  // ---------------------------------------------------------------- the form

  datatype EntryForm = EntryForm(day: string, time: string, studentId: Option<Id>, studentName: string, duration: string)

  const DefaultEntryForm: EntryForm := EntryForm("Lunes", "14:00", None, "", "45 min")

  /** The form's state and the entry being edited, if any. */
  datatype ScheduleUi = ScheduleUi(form: EntryForm, editingId: Option<Id>, isAdding: bool)

  /** The ui after a submit or a cancel: a fresh form, nothing edited, the form closed. */
  const ClosedUi: ScheduleUi := ScheduleUi(DefaultEntryForm, None, false)

  /** `studentDb.find(s => s.id == id)`: the first roster student with that id. */
  function FindStudent(db: seq<Student>, id: Id): (r: Option<Student>)
    ensures r.Some? ==> r.value in db && r.value.id == id
    ensures r.None? <==> Seqs.FreshIn(id, db, StudentId)
  {
    var k := Seqs.FindIndex(db, StudentId, id);
    if k < 0 then None else Some(db[k])
  }

  /** The student menu: the chosen id, and the chosen student's name ('' when none is found). */
  function SelectStudent(f: EntryForm, db: seq<Student>, choice: Option<Id>): (r: EntryForm)
    ensures r.studentId == choice && r.day == f.day && r.time == f.time && r.duration == f.duration
    ensures choice.Some? && FindStudent(db, choice.value).Some? ==> r.studentName == FindStudent(db, choice.value).value.name
    ensures choice.None? || FindStudent(db, choice.value).None? ==> r.studentName == ""
  {
    var st := if choice.Some? then FindStudent(db, choice.value) else None;
    f.(studentId := choice, studentName := if st.Some? then st.value.name else "")
  }

  /** The name that is saved: the roster name when the chosen id is on the roster, otherwise the typed name. */
  function ResolveName(db: seq<Student>, f: EntryForm): (name: string)
    ensures f.studentId.Some? && !Seqs.FreshIn(f.studentId.value, db, StudentId) ==>
      exists st :: st in db && st.id == f.studentId.value && name == st.name
    ensures f.studentId.None? || Seqs.FreshIn(f.studentId.value, db, StudentId) ==> name == f.studentName
  {
    if f.studentId.None? then f.studentName
    else
      var st := FindStudent(db, f.studentId.value);
      if st.Some? then st.value.name else f.studentName
  }

  /** The fields an edit writes: every form field, with the resolved name. */
  function EditPatch(f: EntryForm, name: string): EntryPatch {
    EntryPatch(Some(f.day), Some(f.time), Some(f.studentId), Some(name), Some(f.duration))
  }

  /** The entry an add stores (the store gives it its id). */
  function EntryFromForm(f: EntryForm, name: string): ScheduleEntry {
    ScheduleEntry(0, f.day, f.time, f.studentId, name, f.duration)
  }

  /**
   * `handleAdd`: nothing happens while the typed name or the time is empty;
   * otherwise the entry being edited is updated, or a new entry is added, and
   * the form is closed and reset.
   */
  function HandleAdd(s: AppState, ui: ScheduleUi, id: Id): (r: (AppState, ScheduleUi))
    requires Seqs.FreshIn(id, s.schedule, EntryId)
    ensures ui.form.studentName == "" || ui.form.time == "" ==> r == (s, ui)
    ensures ui.form.studentName != "" && ui.form.time != "" ==>
      r.1 == ClosedUi
      && (ui.editingId.Some? ==>
            r.0 == Store.UpdateScheduleEntry(s, ui.editingId.value, EditPatch(ui.form, ResolveName(s.studentDb, ui.form))))
      && (ui.editingId.None? ==>
            r.0 == Store.AddScheduleEntry(s, EntryFromForm(ui.form, ResolveName(s.studentDb, ui.form)), id))
  {
    if ui.form.studentName == "" || ui.form.time == "" then (s, ui)
    else
      var finalName := ResolveName(s.studentDb, ui.form);
      var s' := if ui.editingId.Some? then Store.UpdateScheduleEntry(s, ui.editingId.value, EditPatch(ui.form, finalName))
                else Store.AddScheduleEntry(s, EntryFromForm(ui.form, finalName), id);
      (s', ClosedUi)
  }

  /** Editing an entry and saving the unchanged form rewrites it with the same day, time and duration. */
  lemma EditKeepsSlot(s: AppState, k: nat, id: Id)
    requires k < |s.schedule| && Seqs.FreshIn(id, s.schedule, EntryId)
    requires s.schedule[k].studentName != "" && s.schedule[k].time != ""
    ensures var e := s.schedule[k];
      var r := HandleAdd(s, StartEdit(e), id).0;
      |r.schedule| == |s.schedule|
      && r.schedule[k].day == e.day && r.schedule[k].time == e.time && r.schedule[k].id == e.id
      && r.schedule[k].duration == (if e.duration == "" then "45 min" else e.duration)
  {
  }

  /** `startEdit`: the form takes the entry's fields, with '45 min' for a missing duration, and opens in edit mode. */
  function StartEdit(e: ScheduleEntry): (ui: ScheduleUi)
    ensures ui.editingId == Some(e.id) && ui.isAdding
    ensures ui.form.day == e.day && ui.form.time == e.time && ui.form.studentId == e.studentId
      && ui.form.studentName == e.studentName
    ensures ui.form.duration == (if e.duration == "" then "45 min" else e.duration)
  {
    ScheduleUi(EntryForm(e.day, e.time, e.studentId, e.studentName, if e.duration == "" then "45 min" else e.duration),
               Some(e.id), true)
  }
}
