/**
 * The persisted finance document of the piano-teacher finance app: a year of
 * months (piano classes, expenses, incomes, savings), the expense/income
 * categories, payment methods, the student roster, the weekly schedule and the
 * brand settings, with the monthly and annual sums every view is built from.
 *
 * Amounts are Chilean pesos (`int`), ids are `int`. A string field that the
 * code only ever reads through JavaScript truthiness (`x || default`,
 * `x && ...`) holds "" when it is absent.
 */
module Model {
  import opened Wrappers
  import Seqs

  type Id = int
  type Amount = int

  datatype CategoryType = Expense | Income
  datatype BudgetBand = Basicos | EstiloVida
  datatype PaymentType = Cash | Debit | Credit
  datatype Status = Pendiente | AlDia
  datatype SavingType = Ahorro | Deuda | Inversion

  datatype Student = Student(
    id: Id, name: string, fullName: string, address: string, phone: string, email: string,
    defaultRate: Amount, duration: string, active: bool)

  datatype Category = Category(
    id: Id, name: string, color: string, kind: CategoryType,
    budgetBand: Option<BudgetBand>, subcategories: seq<string>)

  datatype PaymentMethod = PaymentMethod(id: Id, name: string, kind: PaymentType, color: string)

  datatype ScheduleEntry = ScheduleEntry(
    id: Id, day: string, time: string, studentId: Option<Id>, studentName: string, duration: string)

  /** An expense or an income record. */
  datatype Transaction = Transaction(
    id: Id, description: string, amount: Amount, categoryId: Id, subcategory: string,
    paymentMethodId: Option<Id>, date: string)

  datatype PianoClass = PianoClass(
    id: Id, studentName: string, studentId: Option<Id>, rate: Amount, count: int, total: Amount,
    duration: string, status: Status, paymentDate: Option<string>)

  datatype Saving = Saving(id: Id, description: string, amount: Amount, date: string, kind: SavingType)

  /** `savings` may be missing from documents written before it existed. */
  datatype Month = Month(
    name: string, pianoClasses: seq<PianoClass>, expenses: seq<Transaction>,
    incomes: seq<Transaction>, savings: Option<seq<Saving>>)

  datatype BrandSettings = BrandSettings(name: string, icon: string)

  /** The store's state once every field is present. */
  datatype AppState = AppState(
    year: int, categories: seq<Category>, paymentMethods: seq<PaymentMethod>,
    studentDb: seq<Student>, months: seq<Month>, schedule: seq<ScheduleEntry>,
    brandSettings: BrandSettings)

  /** A stored or uploaded document, in which any top-level field may be missing. */
  datatype Document = Document(
    year: int, categories: Option<seq<Category>>, paymentMethods: Option<seq<PaymentMethod>>,
    studentDb: Option<seq<Student>>, months: Option<seq<Month>>, schedule: Option<seq<ScheduleEntry>>,
    brandSettings: Option<BrandSettings>)

  // ---------------------------------------------------------------- keys and amounts

  function StudentId(s: Student): Id { s.id }
  function CategoryId(c: Category): Id { c.id }
  function PaymentMethodId(m: PaymentMethod): Id { m.id }
  function EntryId(e: ScheduleEntry): Id { e.id }
  function TxId(t: Transaction): Id { t.id }
  function ClassId(c: PianoClass): Id { c.id }
  function TxAmount(t: Transaction): Amount { t.amount }
  function ClassTotal(c: PianoClass): Amount { c.total }
  function SavingAmount(s: Saving): Amount { s.amount }

  // ---------------------------------------------------------------- partial updates

  /** The fields an update call spreads over a record (`{ ...x, ...updatedFields }`); None = not given. */
  datatype StudentPatch = StudentPatch(
    name: Option<string>, fullName: Option<string>, address: Option<string>, phone: Option<string>,
    email: Option<string>, defaultRate: Option<Amount>, duration: Option<string>, active: Option<bool>)

  datatype CategoryPatch = CategoryPatch(
    name: Option<string>, color: Option<string>, kind: Option<CategoryType>, budgetBand: Option<BudgetBand>)

  datatype PaymentMethodPatch = PaymentMethodPatch(
    name: Option<string>, kind: Option<PaymentType>, color: Option<string>)

  datatype EntryPatch = EntryPatch(
    day: Option<string>, time: Option<string>, studentId: Option<Option<Id>>,
    studentName: Option<string>, duration: Option<string>)

  /** `paymentDate: Some(None)` writes `null`. */
  datatype ClassPatch = ClassPatch(
    studentName: Option<string>, rate: Option<Amount>, count: Option<int>, total: Option<Amount>,
    duration: Option<string>, status: Option<Status>, paymentDate: Option<Option<string>>)

  datatype BrandPatch = BrandPatch(name: Option<string>, icon: Option<string>)

  function MergeStudent(s: Student, p: StudentPatch): Student {
    s.(name := p.name.GetOr(s.name), fullName := p.fullName.GetOr(s.fullName),
       address := p.address.GetOr(s.address), phone := p.phone.GetOr(s.phone),
       email := p.email.GetOr(s.email), defaultRate := p.defaultRate.GetOr(s.defaultRate),
       duration := p.duration.GetOr(s.duration), active := p.active.GetOr(s.active))
  }

  function MergeCategory(c: Category, p: CategoryPatch): Category {
    c.(name := p.name.GetOr(c.name), color := p.color.GetOr(c.color), kind := p.kind.GetOr(c.kind),
       budgetBand := if p.budgetBand.Some? then p.budgetBand else c.budgetBand)
  }

  function MergePaymentMethod(m: PaymentMethod, p: PaymentMethodPatch): PaymentMethod {
    m.(name := p.name.GetOr(m.name), kind := p.kind.GetOr(m.kind), color := p.color.GetOr(m.color))
  }

  function MergeEntry(e: ScheduleEntry, p: EntryPatch): ScheduleEntry {
    e.(day := p.day.GetOr(e.day), time := p.time.GetOr(e.time), studentId := p.studentId.GetOr(e.studentId),
       studentName := p.studentName.GetOr(e.studentName), duration := p.duration.GetOr(e.duration))
  }

  function MergeClass(c: PianoClass, p: ClassPatch): PianoClass {
    c.(studentName := p.studentName.GetOr(c.studentName), rate := p.rate.GetOr(c.rate),
       count := p.count.GetOr(c.count), total := p.total.GetOr(c.total),
       duration := p.duration.GetOr(c.duration), status := p.status.GetOr(c.status),
       paymentDate := p.paymentDate.GetOr(c.paymentDate))
  }

  function MergeBrand(b: BrandSettings, p: BrandPatch): BrandSettings {
    b.(name := p.name.GetOr(b.name), icon := p.icon.GetOr(b.icon))
  }

  // ---------------------------------------------------------------- sums

  /** A month's income: its income amounts plus its piano-class totals, whatever their status. */
  function MonthIncome(m: Month): Amount {
    Seqs.SumBy(m.incomes, TxAmount) + Seqs.SumBy(m.pianoClasses, ClassTotal)
  }

  function MonthExpense(m: Month): Amount {
    Seqs.SumBy(m.expenses, TxAmount)
  }

  /** The sum of the monthly incomes. */
  function TotalIncome(ms: seq<Month>): Amount {
    Seqs.SumBy(ms, MonthIncome)
  }

  function TotalExpense(ms: seq<Month>): Amount {
    Seqs.SumBy(ms, MonthExpense)
  }

  /** Appending a class raises the month's income by its total and leaves its expense alone. */
  lemma MonthTotalsAfterClass(m: Month, c: PianoClass)
    ensures MonthIncome(m.(pianoClasses := m.pianoClasses + [c])) == MonthIncome(m) + c.total
    ensures MonthExpense(m.(pianoClasses := m.pianoClasses + [c])) == MonthExpense(m)
  {
    Seqs.SumByConcat(m.pianoClasses, [c], ClassTotal);
    Seqs.SumBySingle(c, ClassTotal);
  }

  /** Replacing one month shifts the annual totals by that month's differences. */
  lemma TotalsAfterMonthUpdate(ms: seq<Month>, i: nat, m': Month)
    requires i < |ms|
    ensures TotalIncome(ms[i := m']) == TotalIncome(ms) - MonthIncome(ms[i]) + MonthIncome(m')
    ensures TotalExpense(ms[i := m']) == TotalExpense(ms) - MonthExpense(ms[i]) + MonthExpense(m')
  {
    Seqs.SumByUpdate(ms, i, m', MonthIncome);
    Seqs.SumByUpdate(ms, i, m', MonthExpense);
  }
}
