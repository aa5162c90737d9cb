/** The month page: its summary, the add-transaction form with its guard and type choice, and the category menus. */
module MonthView {
  import opened Wrappers
  import opened Model
  import Seqs
  import Store

  /** The page's tabs. */
  datatype Tab = PianoTab | IncomesTab | ExpensesTab

  /** The list a submitted transaction goes to: 'expense' on the expenses tab, 'income' on any other. */
  function TypeForTab(tab: Tab): (kind: string)
    ensures kind == "expense" <==> tab == ExpensesTab
    ensures kind == "expense" || kind == "income"
  {
    if tab == ExpensesTab then "expense" else "income"
  }

  datatype MonthSummary = MonthSummary(income: Amount, expense: Amount, balance: Amount)

  /** `getMonthSummary`: piano totals plus other incomes, the expenses, and their difference. */
  function GetMonthSummary(m: Month): (r: MonthSummary)
    ensures r.income == MonthIncome(m)
    ensures r.expense == MonthExpense(m)
    ensures r.balance == MonthIncome(m) - MonthExpense(m)
  {
    var pianoTotal := Seqs.SumBy(m.pianoClasses, ClassTotal);
    var otherIncomes := Seqs.SumBy(m.incomes, TxAmount);
    var totalExpenses := Seqs.SumBy(m.expenses, TxAmount);
    MonthSummary(pianoTotal + otherIncomes, totalExpenses, (pianoTotal + otherIncomes) - totalExpenses)
  }

  /** The add-transaction form; an empty input is `None`. */
  datatype TransactionForm = TransactionForm(
    description: string, amount: Option<Amount>, categoryId: Option<Id>, subcategory: string,
    paymentMethodId: Option<Id>, date: string)

  /** The form as it opens and as it is reset, dated `today`. */
  function EmptyForm(today: string): TransactionForm {
    TransactionForm("", None, None, "", None, today)
  }

  /** The record a filled-in form is sent as. */
  function TxFromForm(f: TransactionForm): (t: Transaction)
    requires f.amount.Some? && f.categoryId.Some?
    ensures t.amount == f.amount.value && t.categoryId == f.categoryId.value
    ensures t.description == f.description && t.subcategory == f.subcategory
    ensures t.paymentMethodId == f.paymentMethodId && t.date == f.date
  {
    Transaction(0, f.description, f.amount.value, f.categoryId.value, f.subcategory, f.paymentMethodId, f.date)
  }

  /**
   * `handleAddTransaction`: nothing happens while the amount or the category
   * is empty; otherwise the transaction goes to the list the tab selects and
   * the form is reset.
   */
  function HandleAddTransaction(s: AppState, monthIndex: nat, tab: Tab, f: TransactionForm, today: string, id: Id)
    : (r: (AppState, TransactionForm))
    requires monthIndex < |s.months|
    requires Seqs.FreshIn(id, Store.TargetList(s.months[monthIndex], TypeForTab(tab)), TxId)
    ensures f.amount.None? || f.categoryId.None? ==> r == (s, f)
    ensures f.amount.Some? && f.categoryId.Some? ==>
      r.1 == EmptyForm(today) && r.0 == Store.AddTransaction(s, monthIndex, TypeForTab(tab), TxFromForm(f), id)
    ensures f.amount.Some? && f.categoryId.Some? && tab == ExpensesTab ==>
      TotalExpense(r.0.months) == TotalExpense(s.months) + f.amount.value
      && TotalIncome(r.0.months) == TotalIncome(s.months)
    ensures f.amount.Some? && f.categoryId.Some? && tab != ExpensesTab ==>
      TotalIncome(r.0.months) == TotalIncome(s.months) + f.amount.value
      && TotalExpense(r.0.months) == TotalExpense(s.months)
  {
    if f.amount.None? || f.categoryId.None? then (s, f)
    else (Store.AddTransaction(s, monthIndex, TypeForTab(tab), TxFromForm(f), id), EmptyForm(today))
  }

  /** The category kind a tab lists. */
  function KindForTab(tab: Tab): CategoryType {
    if tab == ExpensesTab then Expense else Income
  }

  function OfKind(kind: CategoryType): Category -> bool {
    (c: Category) => c.kind == kind
  }

  /** The categories the form offers: those of the tab's kind, in their stored order. */
  function OfferedCategories(cats: seq<Category>, tab: Tab): (r: seq<Category>)
    ensures forall c :: c in r <==> c in cats && c.kind == KindForTab(tab)
    ensures Seqs.IsSubsequence(r, cats)
  {
    Seqs.Filter(cats, OfKind(KindForTab(tab)))
  }

  /** The expense and income menus together hold every category exactly once. */
  lemma OfferedCategoriesPartition(cats: seq<Category>)
    ensures multiset(OfferedCategories(cats, ExpensesTab)) + multiset(OfferedCategories(cats, IncomesTab)) == multiset(cats)
  {
    Seqs.FilterSplit(cats, OfKind(Expense), OfKind(Income));
  }

  /** Choosing a category (or the empty choice) clears the chosen subcategory and changes nothing else. */
  function ChangeCategory(f: TransactionForm, choice: Option<Id>): (r: TransactionForm)
    ensures r.categoryId == choice && r.subcategory == ""
    ensures r.description == f.description && r.amount == f.amount
      && r.paymentMethodId == f.paymentMethodId && r.date == f.date
  {
    f.(categoryId := choice, subcategory := "")
  }

  /** The subcategory menu: the subcategories of the chosen offered category, empty when there is no choice. */
  function SubcategoryOptions(offered: seq<Category>, f: TransactionForm): (r: seq<string>)
    ensures r != [] ==>
      (f.categoryId.Some? && exists c :: c in offered && c.id == f.categoryId.value && c.subcategories == r)
    ensures f.categoryId.None? ==> r == []
    ensures f.categoryId.Some? && Seqs.FindIndex(offered, CategoryId, f.categoryId.value) >= 0 ==>
      r == offered[Seqs.FindIndex(offered, CategoryId, f.categoryId.value)].subcategories
    ensures f.categoryId.Some? && Seqs.FreshIn(f.categoryId.value, offered, CategoryId) ==> r == []
  {
    if f.categoryId.None? then []
    else
      var k := Seqs.FindIndex(offered, CategoryId, f.categoryId.value);
      if k < 0 then [] else offered[k].subcategories
  }
}
