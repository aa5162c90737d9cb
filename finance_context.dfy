/**
 * `FinanceProvider`: the store object holding the finance document and the
 * operations it exposes to the views. Each operation replaces `data` with the
 * next state computed in `Store`; the ones that the provider performs step by
 * step (copying the months, updating one month in place, accumulating totals,
 * tracking the migration flag) do so here in the same steps.
 */
module FinanceContext {
  import opened Wrappers
  import opened Model
  import Seqs
  import Store
  import InitialData

  /**
   * The load-time migration effect: copies the document, fills each missing
   * field from the seed and records that it did so; the copy is written back
   * only when something was filled.
   */
  method MigrationEffect(d: Document) returns (newData: Document, updated: bool)
    ensures updated <==> Store.NeedsMigration(d)
    ensures newData == Store.Migrate(d)
    ensures !updated ==> newData == d
  {
    updated := false;
    newData := d;
    if newData.categories.None? {
      newData := newData.(categories := Some(InitialData.Categories));
      updated := true;
    }
    if newData.paymentMethods.None? {
      newData := newData.(paymentMethods := Some(InitialData.PaymentMethods));
      updated := true;
    }
    if newData.schedule.None? {
      newData := newData.(schedule := Some([]));
      updated := true;
    }
    if newData.brandSettings.None? {
      newData := newData.(brandSettings := Some(InitialData.Brand));
      updated := true;
    }
    if !updated {
      newData := d;
    }
  }

  datatype Summary = Summary(totalIncome: Amount, totalExpense: Amount, balance: Amount)

  class FinanceStore {
    var data: AppState

    /**
     * Mounting the provider: the stored document, or the seed when nothing is
     * stored, followed by the migration effect.
     */
    constructor(stored: Option<Document>)
      requires stored.Some? ==> stored.value.months.Some?
      ensures data == if stored.Some? then Store.ToState(Store.Migrate(stored.value)) else InitialData.State
    {
      var d := stored.GetOr(InitialData.Doc);
      var migrated, _ := MigrationEffect(d);
      InitialData.StateShape();
      Store.InitialDocumentIsSeed();
      data := Store.ToState(migrated);
    }

    /** `updateData`, the raw `setData`. */
    method UpdateData(newData: AppState)
      modifies this
      ensures data == newData
    {
      data := newData;
    }

    // ------------------------------------------------------------ month operations

    method AddTransaction(monthIndex: nat, kind: string, tx: Transaction, id: Id)
      requires monthIndex < |data.months|
      requires Seqs.FreshIn(id, Store.TargetList(data.months[monthIndex], kind), TxId)
      modifies this
      ensures data == Store.AddTransaction(old(data), monthIndex, kind, tx, id)
    {
      var updatedMonths := data.months;
      var month := updatedMonths[monthIndex];
      if kind == "expense" {
        month := month.(expenses := month.expenses + [tx.(id := id)]);
      } else {
        month := month.(incomes := month.incomes + [tx.(id := id)]);
      }
      updatedMonths := updatedMonths[monthIndex := month];
      data := data.(months := updatedMonths);
    }

    method AddPianoClass(monthIndex: nat, pianoClass: PianoClass, id: Id)
      requires monthIndex < |data.months|
      requires Seqs.FreshIn(id, data.months[monthIndex].pianoClasses, ClassId)
      modifies this
      ensures data == Store.AddPianoClass(old(data), monthIndex, pianoClass, id)
    {
      var updatedMonths := data.months;
      var month := updatedMonths[monthIndex];
      month := month.(pianoClasses := month.pianoClasses + [pianoClass.(id := id)]);
      updatedMonths := updatedMonths[monthIndex := month];
      data := data.(months := updatedMonths);
    }

    method UpdatePianoClass(monthIndex: nat, classId: Id, updatedFields: ClassPatch)
      requires monthIndex < |data.months|
      modifies this
      ensures data == Store.UpdatePianoClass(old(data), monthIndex, classId, updatedFields)
    {
      var updatedMonths := data.months;
      var classes := updatedMonths[monthIndex].pianoClasses;
      var classIndex := Seqs.FindIndex(classes, ClassId, classId);
      if classIndex > -1 {
        classes := classes[classIndex := MergeClass(classes[classIndex], updatedFields)];
        updatedMonths := updatedMonths[monthIndex := updatedMonths[monthIndex].(pianoClasses := classes)];
        data := data.(months := updatedMonths);
      }
    }

    method DeletePianoClass(monthIndex: nat, classId: Id)
      requires monthIndex < |data.months|
      modifies this
      ensures data == Store.DeletePianoClass(old(data), monthIndex, classId)
    {
      var updatedMonths := data.months;
      var month := updatedMonths[monthIndex];
      month := month.(pianoClasses := Seqs.RemoveKey(month.pianoClasses, ClassId, classId));
      updatedMonths := updatedMonths[monthIndex := month];
      data := data.(months := updatedMonths);
    }

    method DeleteTransaction(monthIndex: nat, kind: string, id: Id)
      requires monthIndex < |data.months|
      modifies this
      ensures data == Store.DeleteTransaction(old(data), monthIndex, kind, id)
    {
      var updatedMonths := data.months;
      var month := updatedMonths[monthIndex];
      if kind == "expense" {
        month := month.(expenses := Seqs.RemoveKey(month.expenses, TxId, id));
      } else {
        month := month.(incomes := Seqs.RemoveKey(month.incomes, TxId, id));
      }
      updatedMonths := updatedMonths[monthIndex := month];
      data := data.(months := updatedMonths);
    }

    /** The annual totals, accumulated month by month: expenses, then incomes, then class totals. */
    method GetAnnualSummary() returns (summary: Summary)
      ensures summary.totalIncome == TotalIncome(data.months)
      ensures summary.totalExpense == TotalExpense(data.months)
      ensures summary.balance == summary.totalIncome - summary.totalExpense
    {
      var totalIncome := 0;
      var totalExpense := 0;
      var months := data.months;
      var mi := 0;
      while mi < |months|
        invariant 0 <= mi <= |months|
        invariant totalIncome == TotalIncome(months[..mi])
        invariant totalExpense == TotalExpense(months[..mi])
      {
        var month := months[mi];
        var k := 0;
        while k < |month.expenses|
          invariant 0 <= k <= |month.expenses|
          invariant totalExpense == TotalExpense(months[..mi]) + Seqs.SumBy(month.expenses[..k], TxAmount)
        {
          assert month.expenses[..k + 1][..k] == month.expenses[..k];
          totalExpense := totalExpense + month.expenses[k].amount;
          k := k + 1;
        }
        assert month.expenses[..k] == month.expenses;
        k := 0;
        while k < |month.incomes|
          invariant 0 <= k <= |month.incomes|
          invariant totalIncome == TotalIncome(months[..mi]) + Seqs.SumBy(month.incomes[..k], TxAmount)
        {
          assert month.incomes[..k + 1][..k] == month.incomes[..k];
          totalIncome := totalIncome + month.incomes[k].amount;
          k := k + 1;
        }
        assert month.incomes[..k] == month.incomes;
        k := 0;
        while k < |month.pianoClasses|
          invariant 0 <= k <= |month.pianoClasses|
          invariant totalIncome == TotalIncome(months[..mi]) + Seqs.SumBy(month.incomes, TxAmount)
                                   + Seqs.SumBy(month.pianoClasses[..k], ClassTotal)
        {
          assert month.pianoClasses[..k + 1][..k] == month.pianoClasses[..k];
          totalIncome := totalIncome + month.pianoClasses[k].total;
          k := k + 1;
        }
        assert month.pianoClasses[..k] == month.pianoClasses;
        assert months[..mi + 1][..mi] == months[..mi];
        mi := mi + 1;
      }
      assert months[..mi] == months;
      summary := Summary(totalIncome, totalExpense, totalIncome - totalExpense);
    }

    // ------------------------------------------------------------ roster

    method AddStudentToDb(student: Student, id: Id)
      requires Seqs.FreshIn(id, data.studentDb, StudentId)
      modifies this
      ensures data == Store.AddStudentToDb(old(data), student, id)
    {
      data := Store.AddStudentToDb(data, student, id);
    }

    method UpdateStudentInDb(id: Id, updatedFields: StudentPatch)
      modifies this
      ensures data == Store.UpdateStudentInDb(old(data), id, updatedFields)
    {
      data := Store.UpdateStudentInDb(data, id, updatedFields);
    }

    method DeleteStudentInDb(id: Id)
      modifies this
      ensures data == Store.DeleteStudentInDb(old(data), id)
    {
      data := Store.DeleteStudentInDb(data, id);
    }

    /** Appends the classes for the active newcomers; returns 0 without writing when there are none. */
    method ImportStudentsToMonth(monthIndex: nat, ids: seq<Id>) returns (count: nat)
      requires monthIndex < |data.months| && |ids| >= |data.studentDb|
      requires Store.UsableIds(ids, data.months[monthIndex].pianoClasses)
      modifies this
      ensures (data, count) == Store.ImportStudentsToMonth(old(data), monthIndex, ids)
    {
      var activeStudents := Seqs.Filter(data.studentDb, Store.IsActive);
      var newClasses := Store.NewClasses(Store.Newcomers(activeStudents, data.months[monthIndex].pianoClasses), ids);
      if |newClasses| == 0 {
        return 0;
      }
      var updatedMonths := data.months;
      var month := updatedMonths[monthIndex];
      updatedMonths := updatedMonths[monthIndex := month.(pianoClasses := month.pianoClasses + newClasses)];
      data := data.(months := updatedMonths);
      count := |newClasses|;
    }

    /** As `ImportStudentsToMonth`, over the roster students whose id was picked. */
    method ImportSpecificStudents(monthIndex: nat, studentIds: seq<Id>, ids: seq<Id>) returns (count: nat)
      requires monthIndex < |data.months| && |ids| >= |data.studentDb|
      requires Store.UsableIds(ids, data.months[monthIndex].pianoClasses)
      modifies this
      ensures (data, count) == Store.ImportSpecificStudents(old(data), monthIndex, studentIds, ids)
    {
      var selectedStudents := Seqs.Filter(data.studentDb, Store.SelectedBy(studentIds));
      var newClasses := Store.NewClasses(Store.Newcomers(selectedStudents, data.months[monthIndex].pianoClasses), ids);
      if |newClasses| == 0 {
        return 0;
      }
      var updatedMonths := data.months;
      var month := updatedMonths[monthIndex];
      updatedMonths := updatedMonths[monthIndex := month.(pianoClasses := month.pianoClasses + newClasses)];
      data := data.(months := updatedMonths);
      count := |newClasses|;
    }

    // ------------------------------------------------------------ payment methods

    method AddPaymentMethod(pm: PaymentMethod, id: Id)
      requires Seqs.FreshIn(id, data.paymentMethods, PaymentMethodId)
      modifies this
      ensures data == Store.AddPaymentMethod(old(data), pm, id)
    {
      data := Store.AddPaymentMethod(data, pm, id);
    }

    method UpdatePaymentMethod(id: Id, updatedFields: PaymentMethodPatch)
      modifies this
      ensures data == Store.UpdatePaymentMethod(old(data), id, updatedFields)
    {
      data := Store.UpdatePaymentMethod(data, id, updatedFields);
    }

    method DeletePaymentMethod(id: Id)
      modifies this
      ensures data == Store.DeletePaymentMethod(old(data), id)
    {
      data := Store.DeletePaymentMethod(data, id);
    }

    // ------------------------------------------------------------ categories

    method AddSubcategory(categoryId: Id, name: string)
      modifies this
      ensures data == Store.AddSubcategory(old(data), categoryId, name)
    {
      data := Store.AddSubcategory(data, categoryId, name);
    }

    method AddCategory(category: Category, id: Id)
      requires Seqs.FreshIn(id, data.categories, CategoryId)
      modifies this
      ensures data == Store.AddCategory(old(data), category, id)
    {
      data := Store.AddCategory(data, category, id);
    }

    method UpdateCategory(categoryId: Id, updatedFields: CategoryPatch)
      modifies this
      ensures data == Store.UpdateCategory(old(data), categoryId, updatedFields)
    {
      data := Store.UpdateCategory(data, categoryId, updatedFields);
    }

    method DeleteCategory(categoryId: Id)
      modifies this
      ensures data == Store.DeleteCategory(old(data), categoryId)
    {
      data := Store.DeleteCategory(data, categoryId);
    }

    method DeleteSubcategory(categoryId: Id, name: string)
      modifies this
      ensures data == Store.DeleteSubcategory(old(data), categoryId, name)
    {
      data := Store.DeleteSubcategory(data, categoryId, name);
    }

    // ------------------------------------------------------------ schedule

    method AddScheduleEntry(entry: ScheduleEntry, id: Id)
      requires Seqs.FreshIn(id, data.schedule, EntryId)
      modifies this
      ensures data == Store.AddScheduleEntry(old(data), entry, id)
    {
      data := Store.AddScheduleEntry(data, entry, id);
    }

    method UpdateScheduleEntry(id: Id, updatedFields: EntryPatch)
      modifies this
      ensures data == Store.UpdateScheduleEntry(old(data), id, updatedFields)
    {
      data := Store.UpdateScheduleEntry(data, id, updatedFields);
    }

    method DeleteScheduleEntry(id: Id)
      modifies this
      ensures data == Store.DeleteScheduleEntry(old(data), id)
    {
      data := Store.DeleteScheduleEntry(data, id);
    }

    // ------------------------------------------------------------ brand, loading, new year

    method UpdateBrandSettings(updatedFields: BrandPatch)
      modifies this
      ensures data == Store.UpdateBrandSettings(old(data), updatedFields)
    {
      data := Store.UpdateBrandSettings(data, updatedFields);
    }

    /** `loadData` followed by the migration effect it triggers. */
    method LoadData(newData: Document)
      requires newData.months.Some?
      modifies this
      ensures data == Store.ToState(Store.Migrate(newData))
    {
      var migrated, _ := MigrationEffect(newData);
      data := Store.ToState(migrated);
    }

    method StartNewYear()
      modifies this
      ensures data == Store.StartNewYear(old(data))
    {
      var freshMonths := InitialData.Months;
      data := data.(months := freshMonths, schedule := []);
    }
  }
}
