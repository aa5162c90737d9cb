/**
 * The value each store operation of `FinanceProvider` hands to `setData`: one
 * function per operation, from the current state and the call's arguments to
 * the next state. Fresh ids (`Date.now()`, `Date.now() + Math.random()`) are
 * supplied by the caller and must not already be in use.
 */
module Store {
  import opened Wrappers
  import opened Model
  import Seqs
  import InitialData

  // ---------------------------------------------------------------- months: transactions

  /** `type === 'expense'` selects the expenses list; every other type selects incomes. */
  function TargetList(m: Month, kind: string): seq<Transaction> {
    if kind == "expense" then m.expenses else m.incomes
  }

  function WithTargetList(m: Month, kind: string, txs: seq<Transaction>): Month {
    if kind == "expense" then m.(expenses := txs) else m.(incomes := txs)
  }

  /** Appends the transaction, carrying the fresh id, to the chosen list of month `i`. */
  function AddTransaction(s: AppState, i: nat, kind: string, tx: Transaction, id: Id): (r: AppState)
    requires i < |s.months|
    requires Seqs.FreshIn(id, TargetList(s.months[i], kind), TxId)
    ensures |r.months| == |s.months| && r == s.(months := s.months[i := r.months[i]])
    ensures r.months[i] == WithTargetList(s.months[i], kind, TargetList(s.months[i], kind) + [tx.(id := id)])
    ensures kind == "expense" ==>
      TotalExpense(r.months) == TotalExpense(s.months) + tx.amount && TotalIncome(r.months) == TotalIncome(s.months)
    ensures kind != "expense" ==>
      TotalIncome(r.months) == TotalIncome(s.months) + tx.amount && TotalExpense(r.months) == TotalExpense(s.months)
  {
    var m := s.months[i];
    var m' := WithTargetList(m, kind, TargetList(m, kind) + [tx.(id := id)]);
    Seqs.SumByConcat(TargetList(m, kind), [tx.(id := id)], TxAmount);
    Seqs.SumBySingle(tx.(id := id), TxAmount);
    TotalsAfterMonthUpdate(s.months, i, m');
    s.(months := s.months[i := m'])
  }

  /** Keeps, in order, the entries of the chosen list of month `i` whose id is not `id`. */
  function DeleteTransaction(s: AppState, i: nat, kind: string, id: Id): (r: AppState)
    requires i < |s.months|
    ensures |r.months| == |s.months| && r == s.(months := s.months[i := r.months[i]])
    ensures r.months[i] == WithTargetList(s.months[i], kind, TargetList(r.months[i], kind))
    ensures forall t :: t in TargetList(r.months[i], kind) <==> t in TargetList(s.months[i], kind) && t.id != id
    ensures Seqs.IsSubsequence(TargetList(r.months[i], kind), TargetList(s.months[i], kind))
  {
    var m := s.months[i];
    s.(months := s.months[i := WithTargetList(m, kind, Seqs.RemoveKey(TargetList(m, kind), TxId, id))])
  }

  /** Deleting the transaction just added under a fresh id restores the state. */
  lemma DeleteUndoesAddTransaction(s: AppState, i: nat, kind: string, tx: Transaction, id: Id)
    requires i < |s.months|
    requires Seqs.FreshIn(id, TargetList(s.months[i], kind), TxId)
    ensures DeleteTransaction(AddTransaction(s, i, kind, tx, id), i, kind, id) == s
  {
    var m := s.months[i];
    Seqs.RemoveAppended(TargetList(m, kind), tx.(id := id), TxId);
    assert WithTargetList(m, kind, TargetList(m, kind)) == m;
    assert s.months[i := m] == s.months;
  }

  // ---------------------------------------------------------------- months: piano classes

  function AddPianoClass(s: AppState, i: nat, c: PianoClass, id: Id): (r: AppState)
    requires i < |s.months|
    requires Seqs.FreshIn(id, s.months[i].pianoClasses, ClassId)
    ensures |r.months| == |s.months| && r == s.(months := s.months[i := r.months[i]])
    ensures r.months[i] == s.months[i].(pianoClasses := s.months[i].pianoClasses + [c.(id := id)])
    ensures TotalIncome(r.months) == TotalIncome(s.months) + c.total
    ensures TotalExpense(r.months) == TotalExpense(s.months)
  {
    var m := s.months[i];
    var m' := m.(pianoClasses := m.pianoClasses + [c.(id := id)]);
    MonthTotalsAfterClass(m, c.(id := id));
    TotalsAfterMonthUpdate(s.months, i, m');
    s.(months := s.months[i := m'])
  }

  /**
   * Merges the patch onto the FIRST class of month `i` carrying `classId`
   * (`findIndex`); nothing happens when no class carries it.
   */
  function UpdatePianoClass(s: AppState, i: nat, classId: Id, p: ClassPatch): (r: AppState)
    requires i < |s.months|
    ensures Seqs.FreshIn(classId, s.months[i].pianoClasses, ClassId) ==> r == s
    ensures |r.months| == |s.months| && r == s.(months := s.months[i := r.months[i]])
    ensures r.months[i] == s.months[i].(pianoClasses := r.months[i].pianoClasses)
    ensures |r.months[i].pianoClasses| == |s.months[i].pianoClasses|
    ensures forall k :: 0 <= k < |s.months[i].pianoClasses| ==>
      var c := s.months[i].pianoClasses[k];
      r.months[i].pianoClasses[k] ==
        if k == Seqs.FindIndex(s.months[i].pianoClasses, ClassId, classId) then MergeClass(c, p) else c
  {
    var cs := s.months[i].pianoClasses;
    var k := Seqs.FindIndex(cs, ClassId, classId);
    if k > -1 then
      s.(months := s.months[i := s.months[i].(pianoClasses := cs[k := MergeClass(cs[k], p)])])
    else
      s
  }

  function DeletePianoClass(s: AppState, i: nat, classId: Id): (r: AppState)
    requires i < |s.months|
    ensures |r.months| == |s.months| && r == s.(months := s.months[i := r.months[i]])
    ensures r.months[i] == s.months[i].(pianoClasses := r.months[i].pianoClasses)
    ensures forall c :: c in r.months[i].pianoClasses <==> c in s.months[i].pianoClasses && c.id != classId
    ensures Seqs.IsSubsequence(r.months[i].pianoClasses, s.months[i].pianoClasses)
  {
    var m := s.months[i];
    s.(months := s.months[i := m.(pianoClasses := Seqs.RemoveKey(m.pianoClasses, ClassId, classId))])
  }

  lemma DeleteUndoesAddPianoClass(s: AppState, i: nat, c: PianoClass, id: Id)
    requires i < |s.months|
    requires Seqs.FreshIn(id, s.months[i].pianoClasses, ClassId)
    ensures DeletePianoClass(AddPianoClass(s, i, c, id), i, id) == s
  {
    Seqs.RemoveAppended(s.months[i].pianoClasses, c.(id := id), ClassId);
    assert s.months[i := s.months[i]] == s.months;
  }

  /**
   * `updatePianoClass` does not recompute `total`: a patch without one leaves
   * every month's income as it was, whatever it says about rate or count.
   */
  lemma UpdateWithoutTotalKeepsIncome(s: AppState, i: nat, classId: Id, p: ClassPatch)
    requires i < |s.months|
    requires p.total.None?
    ensures TotalIncome(UpdatePianoClass(s, i, classId, p).months) == TotalIncome(s.months)
    ensures TotalExpense(UpdatePianoClass(s, i, classId, p).months) == TotalExpense(s.months)
  {
    var r := UpdatePianoClass(s, i, classId, p);
    var cs := s.months[i].pianoClasses;
    Seqs.SumByPointwise(r.months[i].pianoClasses, ClassTotal, cs, ClassTotal);
    TotalsAfterMonthUpdate(s.months, i, r.months[i]);
  }

  // ---------------------------------------------------------------- roster

  function AddStudentToDb(s: AppState, st: Student, id: Id): (r: AppState)
    requires Seqs.FreshIn(id, s.studentDb, StudentId)
    ensures r == s.(studentDb := s.studentDb + [st.(id := id, active := true)])
    ensures |r.studentDb| == |s.studentDb| + 1 && r.studentDb[|s.studentDb|].active
  {
    s.(studentDb := s.studentDb + [st.(id := id, active := true)])
  }

  function MergeStudentWith(p: StudentPatch): Student -> Student {
    (st: Student) => MergeStudent(st, p)
  }

  function UpdateStudentInDb(s: AppState, id: Id, p: StudentPatch): (r: AppState)
    ensures r == s.(studentDb := r.studentDb)
    ensures |r.studentDb| == |s.studentDb|
    ensures forall k :: 0 <= k < |s.studentDb| ==>
      r.studentDb[k] == if s.studentDb[k].id == id then MergeStudent(s.studentDb[k], p) else s.studentDb[k]
    ensures Seqs.FreshIn(id, s.studentDb, StudentId) ==> r == s
  {
    s.(studentDb := Seqs.MapKey(s.studentDb, StudentId, id, MergeStudentWith(p)))
  }

  function DeleteStudentInDb(s: AppState, id: Id): (r: AppState)
    ensures r == s.(studentDb := r.studentDb)
    ensures forall x :: x in r.studentDb <==> x in s.studentDb && x.id != id
    ensures Seqs.IsSubsequence(r.studentDb, s.studentDb)
  {
    s.(studentDb := Seqs.RemoveKey(s.studentDb, StudentId, id))
  }

  lemma DeleteUndoesAddStudent(s: AppState, st: Student, id: Id)
    requires Seqs.FreshIn(id, s.studentDb, StudentId)
    ensures DeleteStudentInDb(AddStudentToDb(s, st, id), id) == s
  {
    Seqs.RemoveAppended(s.studentDb, st.(id := id, active := true), StudentId);
  }

  /** Deleting after an update leaves what deleting alone leaves: merges never change ids. */
  lemma DeleteAfterUpdateStudent(s: AppState, id: Id, p: StudentPatch)
    ensures DeleteStudentInDb(UpdateStudentInDb(s, id, p), id) == DeleteStudentInDb(s, id)
  {
    Seqs.RemoveAfterMap(s.studentDb, StudentId, id, MergeStudentWith(p));
  }

  // ---------------------------------------------------------------- importing the roster

  /** Month classes already stand for `st` when one has its id or its name. */
  predicate HasClassFor(classes: seq<PianoClass>, st: Student) {
    exists c :: c in classes && (c.studentId == Some(st.id) || c.studentName == st.name)
  }

  function NotYetIn(classes: seq<PianoClass>): Student -> bool {
    (st: Student) => !HasClassFor(classes, st)
  }

  function IsActive(st: Student): bool {
    st.active
  }

  function SelectedBy(studentIds: seq<Id>): Student -> bool {
    (st: Student) => st.id in studentIds
  }

  /** An active student the month has no class for. */
  function ActiveNewcomer(classes: seq<PianoClass>): Student -> bool {
    (st: Student) => st.active && !HasClassFor(classes, st)
  }

  /** A picked student the month has no class for. */
  function SelectedNewcomer(studentIds: seq<Id>, classes: seq<PianoClass>): Student -> bool {
    (st: Student) => st.id in studentIds && !HasClassFor(classes, st)
  }

  /** The class an import creates for a student: four lessons at the student's rate, pending. */
  function ClassForStudent(st: Student, id: Id): PianoClass {
    PianoClass(id, st.name, Some(st.id), st.defaultRate, 4, st.defaultRate * 4,
               if st.duration == "" then "1 hora" else st.duration, Pendiente, None)
  }

  /** Ids for the new classes: pairwise distinct and unused in the month. */
  ghost predicate UsableIds(ids: seq<Id>, classes: seq<PianoClass>) {
    (forall a, b :: 0 <= a < b < |ids| ==> ids[a] != ids[b])
    && forall k :: 0 <= k < |ids| ==> Seqs.FreshIn(ids[k], classes, ClassId)
  }

  /** The students of `pool` that the month does not yet have a class for, in pool order. */
  function Newcomers(pool: seq<Student>, classes: seq<PianoClass>): (e: seq<Student>)
    ensures forall st :: st in e <==> st in pool && !HasClassFor(classes, st)
    ensures Seqs.IsSubsequence(e, pool)
    ensures |e| <= |pool|
  {
    Seqs.Filter(pool, NotYetIn(classes))
  }

  function NewClasses(students: seq<Student>, ids: seq<Id>): (cs: seq<PianoClass>)
    requires |ids| >= |students|
    ensures |cs| == |students|
  {
    seq(|students|, k requires 0 <= k < |students| => ClassForStudent(students[k], ids[k]))
  }

  /** Appends one class per newcomer of `pool` and returns how many; untouched when there are none. */
  function ImportPool(s: AppState, i: nat, pool: seq<Student>, ids: seq<Id>): (r: (AppState, nat))
    requires i < |s.months| && |ids| >= |pool|
    ensures r.1 == |Newcomers(pool, s.months[i].pianoClasses)|
    ensures r.1 == 0 ==> r.0 == s
    ensures |r.0.months| == |s.months| && r.0 == s.(months := s.months[i := r.0.months[i]])
    ensures r.0.months[i] == s.months[i].(pianoClasses := r.0.months[i].pianoClasses)
    ensures r.0.months[i].pianoClasses ==
      s.months[i].pianoClasses + NewClasses(Newcomers(pool, s.months[i].pianoClasses), ids)
  {
    var m := s.months[i];
    var added := NewClasses(Newcomers(pool, m.pianoClasses), ids);
    if |added| == 0 then
      assert m.pianoClasses + added == m.pianoClasses;
      assert s.months[i := m] == s.months;
      (s, 0)
    else
      (s.(months := s.months[i := m.(pianoClasses := m.pianoClasses + added)]), |added|)
  }

  /** `importStudentsToMonth`: the pool is the active roster. */
  function ImportStudentsToMonth(s: AppState, i: nat, ids: seq<Id>): (r: (AppState, nat))
    requires i < |s.months| && |ids| >= |s.studentDb|
    requires UsableIds(ids, s.months[i].pianoClasses)
    ensures r.1 == Seqs.Count(s.studentDb, ActiveNewcomer(s.months[i].pianoClasses))
  {
    var pool := Seqs.Filter(s.studentDb, IsActive);
    var classes := s.months[i].pianoClasses;
    Seqs.FilterFilter(s.studentDb, IsActive, NotYetIn(classes), ActiveNewcomer(classes));
    Seqs.FilterCount(s.studentDb, ActiveNewcomer(classes));
    ImportPool(s, i, pool, ids)
  }

  /** `importSpecificStudents`: the pool is every roster student whose id was picked, active or not. */
  function ImportSpecificStudents(s: AppState, i: nat, studentIds: seq<Id>, ids: seq<Id>): (r: (AppState, nat))
    requires i < |s.months| && |ids| >= |s.studentDb|
    requires UsableIds(ids, s.months[i].pianoClasses)
    ensures r.1 == Seqs.Count(s.studentDb, SelectedNewcomer(studentIds, s.months[i].pianoClasses))
  {
    var pool := Seqs.Filter(s.studentDb, SelectedBy(studentIds));
    var classes := s.months[i].pianoClasses;
    Seqs.FilterFilter(s.studentDb, SelectedBy(studentIds), NotYetIn(classes), SelectedNewcomer(studentIds, classes));
    Seqs.FilterCount(s.studentDb, SelectedNewcomer(studentIds, classes));
    ImportPool(s, i, pool, ids)
  }

  /**
   * What an import of `pool` adds: exactly one class per pool student without a
   * class in the month, each a copy of that student's data, in pool order,
   * after the classes that were already there.
   */
  lemma ImportPoolAdds(s: AppState, i: nat, pool: seq<Student>, ids: seq<Id>)
    requires i < |s.months| && |ids| >= |pool|
    ensures var old_ := s.months[i].pianoClasses;
      var e := Newcomers(pool, old_);
      var cs := ImportPool(s, i, pool, ids).0.months[i].pianoClasses;
      && |cs| == |old_| + |e|
      && cs[..|old_|] == old_
      && Seqs.IsSubsequence(e, pool)
      && (forall st :: st in e <==> st in pool && !HasClassFor(old_, st))
      && forall k :: 0 <= k < |e| ==>
           var c := cs[|old_| + k];
           && c.id == ids[k]
           && c.studentId == Some(e[k].id) && c.studentName == e[k].name
           && c.rate == e[k].defaultRate && c.count == 4 && c.total == e[k].defaultRate * 4
           && c.status == Pendiente
           && c.duration == (if e[k].duration == "" then "1 hora" else e[k].duration)
  {
    var old_ := s.months[i].pianoClasses;
    var e := Newcomers(pool, old_);
    var cs := ImportPool(s, i, pool, ids).0.months[i].pianoClasses;
    assert cs == old_ + NewClasses(e, ids);
    assert cs[..|old_|] == old_;
  }

  /** After an import, every pool student has a class in the month. */
  lemma ImportCoversPool(s: AppState, i: nat, pool: seq<Student>, ids: seq<Id>)
    requires i < |s.months| && |ids| >= |pool|
    ensures forall st :: st in pool ==> HasClassFor(ImportPool(s, i, pool, ids).0.months[i].pianoClasses, st)
  {
    var old_ := s.months[i].pianoClasses;
    var e := Newcomers(pool, old_);
    var added := NewClasses(e, ids);
    var cs := ImportPool(s, i, pool, ids).0.months[i].pianoClasses;
    assert cs == old_ + added;
    forall st | st in pool ensures HasClassFor(cs, st) {
      if HasClassFor(old_, st) {
        var c :| c in old_ && (c.studentId == Some(st.id) || c.studentName == st.name);
        assert c in cs;
      } else {
        assert st in e;
        var k :| 0 <= k < |e| && e[k] == st;
        assert added[k] in cs;
      }
    }
  }

  /** Importing the same pool again right away adds nothing, returns 0 and leaves the state alone. */
  lemma ImportPoolTwice(s: AppState, i: nat, pool: seq<Student>, ids: seq<Id>, ids2: seq<Id>)
    requires i < |s.months| && |ids| >= |pool| && |ids2| >= |pool|
    ensures var s1 := ImportPool(s, i, pool, ids).0;
      ImportPool(s1, i, pool, ids2) == (s1, 0)
  {
    var s1 := ImportPool(s, i, pool, ids).0;
    ImportCoversPool(s, i, pool, ids);
    Seqs.FilterNone(pool, NotYetIn(s1.months[i].pianoClasses));
  }

  /** `importStudentsToMonth` called twice in a row: the second call returns 0 and changes nothing. */
  lemma ImportStudentsTwiceReturnsZero(s: AppState, i: nat, ids: seq<Id>, ids2: seq<Id>)
    requires i < |s.months| && |ids| >= |s.studentDb| && |ids2| >= |s.studentDb|
    requires UsableIds(ids, s.months[i].pianoClasses)
    requires UsableIds(ids2, ImportStudentsToMonth(s, i, ids).0.months[i].pianoClasses)
    ensures var s1 := ImportStudentsToMonth(s, i, ids).0;
      ImportStudentsToMonth(s1, i, ids2) == (s1, 0)
  {
    var pool := Seqs.Filter(s.studentDb, IsActive);
    ImportPoolTwice(s, i, pool, ids, ids2);
  }

  /** `importSpecificStudents` with the same ids twice in a row: the second call returns 0. */
  lemma ImportSpecificTwiceReturnsZero(s: AppState, i: nat, studentIds: seq<Id>, ids: seq<Id>, ids2: seq<Id>)
    requires i < |s.months| && |ids| >= |s.studentDb| && |ids2| >= |s.studentDb|
    requires UsableIds(ids, s.months[i].pianoClasses)
    requires UsableIds(ids2, ImportSpecificStudents(s, i, studentIds, ids).0.months[i].pianoClasses)
    ensures var s1 := ImportSpecificStudents(s, i, studentIds, ids).0;
      ImportSpecificStudents(s1, i, studentIds, ids2) == (s1, 0)
  {
    var pool := Seqs.Filter(s.studentDb, SelectedBy(studentIds));
    ImportPoolTwice(s, i, pool, ids, ids2);
  }

  // ---------------------------------------------------------------- payment methods

  function AddPaymentMethod(s: AppState, pm: PaymentMethod, id: Id): (r: AppState)
    requires Seqs.FreshIn(id, s.paymentMethods, PaymentMethodId)
    ensures r == s.(paymentMethods := s.paymentMethods + [pm.(id := id)])
  {
    s.(paymentMethods := s.paymentMethods + [pm.(id := id)])
  }

  function MergePaymentMethodWith(p: PaymentMethodPatch): PaymentMethod -> PaymentMethod {
    (pm: PaymentMethod) => MergePaymentMethod(pm, p)
  }

  function UpdatePaymentMethod(s: AppState, id: Id, p: PaymentMethodPatch): (r: AppState)
    ensures r == s.(paymentMethods := r.paymentMethods)
    ensures |r.paymentMethods| == |s.paymentMethods|
    ensures forall k :: 0 <= k < |s.paymentMethods| ==>
      r.paymentMethods[k] ==
        if s.paymentMethods[k].id == id then MergePaymentMethod(s.paymentMethods[k], p) else s.paymentMethods[k]
    ensures Seqs.FreshIn(id, s.paymentMethods, PaymentMethodId) ==> r == s
  {
    s.(paymentMethods := Seqs.MapKey(s.paymentMethods, PaymentMethodId, id, MergePaymentMethodWith(p)))
  }

  function DeletePaymentMethod(s: AppState, id: Id): (r: AppState)
    ensures r == s.(paymentMethods := r.paymentMethods)
    ensures forall x :: x in r.paymentMethods <==> x in s.paymentMethods && x.id != id
    ensures Seqs.IsSubsequence(r.paymentMethods, s.paymentMethods)
  {
    s.(paymentMethods := Seqs.RemoveKey(s.paymentMethods, PaymentMethodId, id))
  }

  lemma DeleteUndoesAddPaymentMethod(s: AppState, pm: PaymentMethod, id: Id)
    requires Seqs.FreshIn(id, s.paymentMethods, PaymentMethodId)
    ensures DeletePaymentMethod(AddPaymentMethod(s, pm, id), id) == s
  {
    Seqs.RemoveAppended(s.paymentMethods, pm.(id := id), PaymentMethodId);
  }

  lemma DeleteAfterUpdatePaymentMethod(s: AppState, id: Id, p: PaymentMethodPatch)
    ensures DeletePaymentMethod(UpdatePaymentMethod(s, id, p), id) == DeletePaymentMethod(s, id)
  {
    Seqs.RemoveAfterMap(s.paymentMethods, PaymentMethodId, id, MergePaymentMethodWith(p));
  }

  // ---------------------------------------------------------------- categories

  function AppendSubcategory(name: string): Category -> Category {
    (c: Category) => c.(subcategories := c.subcategories + [name])
  }

  function IsNot(name: string): string -> bool {
    (x: string) => x != name
  }

  function DropSubcategory(name: string): Category -> Category {
    (c: Category) => c.(subcategories := Seqs.Filter(c.subcategories, IsNot(name)))
  }

  function AddSubcategory(s: AppState, categoryId: Id, name: string): (r: AppState)
    ensures r == s.(categories := r.categories)
    ensures |r.categories| == |s.categories|
    ensures forall k :: 0 <= k < |s.categories| ==>
      var c := s.categories[k];
      r.categories[k] == if c.id == categoryId then c.(subcategories := c.subcategories + [name]) else c
  {
    s.(categories := Seqs.MapKey(s.categories, CategoryId, categoryId, AppendSubcategory(name)))
  }

  /** Appends the category with the fresh id and, whatever it carried, no subcategories. */
  function AddCategory(s: AppState, c: Category, id: Id): (r: AppState)
    requires Seqs.FreshIn(id, s.categories, CategoryId)
    ensures r == s.(categories := s.categories + [c.(id := id, subcategories := [])])
  {
    s.(categories := s.categories + [c.(id := id, subcategories := [])])
  }

  function MergeCategoryWith(p: CategoryPatch): Category -> Category {
    (c: Category) => MergeCategory(c, p)
  }

  function UpdateCategory(s: AppState, id: Id, p: CategoryPatch): (r: AppState)
    ensures r == s.(categories := r.categories)
    ensures |r.categories| == |s.categories|
    ensures forall k :: 0 <= k < |s.categories| ==>
      r.categories[k] == if s.categories[k].id == id then MergeCategory(s.categories[k], p) else s.categories[k]
    ensures Seqs.FreshIn(id, s.categories, CategoryId) ==> r == s
  {
    s.(categories := Seqs.MapKey(s.categories, CategoryId, id, MergeCategoryWith(p)))
  }

  /** Removes the category only: transactions keep their (now dangling) `categoryId`. */
  function DeleteCategory(s: AppState, id: Id): (r: AppState)
    ensures r == s.(categories := r.categories)
    ensures forall x :: x in r.categories <==> x in s.categories && x.id != id
    ensures Seqs.IsSubsequence(r.categories, s.categories)
  {
    s.(categories := Seqs.RemoveKey(s.categories, CategoryId, id))
  }

  /** Removes every occurrence of `name` from the subcategories of the categories carrying `categoryId`. */
  function DeleteSubcategory(s: AppState, categoryId: Id, name: string): (r: AppState)
    ensures r == s.(categories := r.categories)
    ensures |r.categories| == |s.categories|
    ensures forall k :: 0 <= k < |s.categories| ==>
      var c := s.categories[k];
      var c' := r.categories[k];
      if c.id == categoryId then
        c' == c.(subcategories := c'.subcategories)
        && (forall x :: x in c'.subcategories <==> x in c.subcategories && x != name)
        && Seqs.IsSubsequence(c'.subcategories, c.subcategories)
        && multiset(c'.subcategories) == multiset(c.subcategories)[name := 0]
      else c' == c
  {
    var r := s.(categories := Seqs.MapKey(s.categories, CategoryId, categoryId, DropSubcategory(name)));
    assert forall k :: 0 <= k < |s.categories| && s.categories[k].id == categoryId ==>
      multiset(r.categories[k].subcategories) == multiset(s.categories[k].subcategories)[name := 0] by {
      forall k | 0 <= k < |s.categories| && s.categories[k].id == categoryId {
        DropSubcategoryCounts(s.categories[k], name);
      }
    }
    r
  }

  /** Dropping a name removes every copy of it and keeps every copy of the other names. */
  lemma DropSubcategoryCounts(c: Category, name: string)
    ensures multiset(DropSubcategory(name)(c).subcategories) == multiset(c.subcategories)[name := 0]
  {
    forall x ensures multiset(DropSubcategory(name)(c).subcategories)[x] == multiset(c.subcategories)[name := 0][x] {
      Seqs.FilterMultiplicity(c.subcategories, IsNot(name), x);
    }
  }

  lemma DeleteUndoesAddCategory(s: AppState, c: Category, id: Id)
    requires Seqs.FreshIn(id, s.categories, CategoryId)
    ensures DeleteCategory(AddCategory(s, c, id), id) == s
  {
    Seqs.RemoveAppended(s.categories, c.(id := id, subcategories := []), CategoryId);
  }

  /** Deleting a subcategory just added to a category that lacked it restores that category. */
  lemma DeleteUndoesAddSubcategory(s: AppState, categoryId: Id, name: string)
    requires forall c :: c in s.categories && c.id == categoryId ==> name !in c.subcategories
    ensures DeleteSubcategory(AddSubcategory(s, categoryId, name), categoryId, name) == s
  {
    var r := DeleteSubcategory(AddSubcategory(s, categoryId, name), categoryId, name);
    forall k | 0 <= k < |s.categories| ensures r.categories[k] == s.categories[k] {
      var c := s.categories[k];
      if c.id == categoryId {
        assert c in s.categories;
        Seqs.FilterConcat(c.subcategories, [name], IsNot(name));
        Seqs.FilterAll(c.subcategories, IsNot(name));
        assert [name][1..] == [];
      }
    }
  }

  /** A category delete leaves a transaction that used it in place, pointing at no category. */
  lemma DeleteCategoryLeavesDanglingIds(s: AppState, id: Id, i: nat, t: Transaction)
    requires i < |s.months| && t in s.months[i].expenses && t.categoryId == id
    ensures var r := DeleteCategory(s, id);
      t in r.months[i].expenses && forall c :: c in r.categories ==> c.id != t.categoryId
  {
  }

  // ---------------------------------------------------------------- schedule

  function AddScheduleEntry(s: AppState, e: ScheduleEntry, id: Id): (r: AppState)
    requires Seqs.FreshIn(id, s.schedule, EntryId)
    ensures r == s.(schedule := s.schedule + [e.(id := id)])
  {
    s.(schedule := s.schedule + [e.(id := id)])
  }

  function MergeEntryWith(p: EntryPatch): ScheduleEntry -> ScheduleEntry {
    (e: ScheduleEntry) => MergeEntry(e, p)
  }

  function UpdateScheduleEntry(s: AppState, id: Id, p: EntryPatch): (r: AppState)
    ensures r == s.(schedule := r.schedule)
    ensures |r.schedule| == |s.schedule|
    ensures forall k :: 0 <= k < |s.schedule| ==>
      r.schedule[k] == if s.schedule[k].id == id then MergeEntry(s.schedule[k], p) else s.schedule[k]
    ensures Seqs.FreshIn(id, s.schedule, EntryId) ==> r == s
  {
    s.(schedule := Seqs.MapKey(s.schedule, EntryId, id, MergeEntryWith(p)))
  }

  function DeleteScheduleEntry(s: AppState, id: Id): (r: AppState)
    ensures r == s.(schedule := r.schedule)
    ensures forall x :: x in r.schedule <==> x in s.schedule && x.id != id
    ensures Seqs.IsSubsequence(r.schedule, s.schedule)
  {
    s.(schedule := Seqs.RemoveKey(s.schedule, EntryId, id))
  }

  lemma DeleteUndoesAddScheduleEntry(s: AppState, e: ScheduleEntry, id: Id)
    requires Seqs.FreshIn(id, s.schedule, EntryId)
    ensures DeleteScheduleEntry(AddScheduleEntry(s, e, id), id) == s
  {
    Seqs.RemoveAppended(s.schedule, e.(id := id), EntryId);
  }

  lemma DeleteAfterUpdateScheduleEntry(s: AppState, id: Id, p: EntryPatch)
    ensures DeleteScheduleEntry(UpdateScheduleEntry(s, id, p), id) == DeleteScheduleEntry(s, id)
  {
    Seqs.RemoveAfterMap(s.schedule, EntryId, id, MergeEntryWith(p));
  }

  // ---------------------------------------------------------------- brand and year

  function UpdateBrandSettings(s: AppState, p: BrandPatch): (r: AppState)
    ensures r == s.(brandSettings := r.brandSettings)
    ensures r.brandSettings.name == (if p.name.Some? then p.name.value else s.brandSettings.name)
    ensures r.brandSettings.icon == (if p.icon.Some? then p.icon.value else s.brandSettings.icon)
  {
    s.(brandSettings := MergeBrand(s.brandSettings, p))
  }

  /** Twelve fresh empty months and an empty schedule; roster, categories, methods, brand and year stay. */
  function StartNewYear(s: AppState): (r: AppState)
    ensures r == s.(months := InitialData.Months, schedule := [])
    ensures |r.months| == 12 && TotalIncome(r.months) == 0 && TotalExpense(r.months) == 0
  {
    InitialData.MonthsAreTwelveEmpty();
    InitialData.MonthsHaveZeroTotals();
    s.(months := InitialData.Months, schedule := [])
  }

  // ---------------------------------------------------------------- documents and migration

  /** A field the load-time migration fills is missing. */
  predicate NeedsMigration(d: Document) {
    d.categories.None? || d.paymentMethods.None? || d.schedule.None? || d.brandSettings.None?
  }

  /** Fills categories, payment methods, schedule and brand settings from the seed when missing. */
  function Migrate(d: Document): (r: Document)
    ensures r.year == d.year && r.studentDb == d.studentDb && r.months == d.months
    ensures r.categories == (if d.categories.Some? then d.categories else Some(InitialData.Categories))
    ensures r.paymentMethods == (if d.paymentMethods.Some? then d.paymentMethods else Some(InitialData.PaymentMethods))
    ensures r.schedule == (if d.schedule.Some? then d.schedule else Some([]))
    ensures r.brandSettings == (if d.brandSettings.Some? then d.brandSettings else Some(InitialData.Brand))
    ensures !NeedsMigration(r)
  {
    d.(categories := Some(d.categories.GetOr(InitialData.Categories)),
       paymentMethods := Some(d.paymentMethods.GetOr(InitialData.PaymentMethods)),
       schedule := Some(d.schedule.GetOr([])),
       brandSettings := Some(d.brandSettings.GetOr(InitialData.Brand)))
  }

  /** The migration changes a document exactly when a field it fills is missing. */
  lemma MigrateChangesIff(d: Document)
    ensures Migrate(d) == d <==> !NeedsMigration(d)
  {
  }

  lemma MigrateIdempotent(d: Document)
    ensures Migrate(Migrate(d)) == Migrate(d)
  {
  }

  /** The state a document stands for once it has months and every migrated field; a missing roster is empty. */
  function ToState(d: Document): (s: AppState)
    requires d.months.Some? && !NeedsMigration(d)
    ensures s.months == d.months.value && s.studentDb == d.studentDb.GetOr([])
    ensures Some(s.categories) == d.categories && Some(s.paymentMethods) == d.paymentMethods
    ensures Some(s.schedule) == d.schedule && Some(s.brandSettings) == d.brandSettings
    ensures s.year == d.year
  {
    AppState(d.year, d.categories.value, d.paymentMethods.value, d.studentDb.GetOr([]),
             d.months.value, d.schedule.value, d.brandSettings.value)
  }

  /** The document a state is saved as (`JSON.stringify(data)`): every field present. */
  function ToDocument(s: AppState): (d: Document)
    ensures d.months.Some? && d.studentDb.Some? && !NeedsMigration(d)
  {
    Document(s.year, Some(s.categories), Some(s.paymentMethods), Some(s.studentDb),
             Some(s.months), Some(s.schedule), Some(s.brandSettings))
  }

  /** Saving a state and loading the file back, migration included, gives the same state. */
  lemma DocumentRoundTrip(s: AppState)
    ensures Migrate(ToDocument(s)) == ToDocument(s)
    ensures ToState(Migrate(ToDocument(s))) == s
  {
  }

  lemma InitialDocumentIsSeed()
    ensures ToState(Migrate(InitialData.Doc)) == InitialData.State
  {
  }
}
