/**
 * The settings page: its tabs, the payment-method and category forms, the
 * category card's guarded subcategory add and rename, the budget-band
 * buttons, and the backup import and new-year actions.
 */
module Settings {
  import opened Wrappers
  import opened Model
  import Seqs
  import Text
  import Store
  import InitialData

  // ---------------------------------------------------------------- tabs

  datatype SettingsTab = PaymentMethodsTab | CategoriesTab | DataTab
  datatype Panel = PaymentMethodsPanel | CategoriesPanel | DataPanel

  /** The panels on screen: the payment-method panel or else the category panel, plus the data panel on its tab. */
  function PanelsAsWritten(tab: SettingsTab): (ps: set<Panel>)
    ensures DataPanel in ps <==> tab == DataTab
    ensures (PaymentMethodsPanel in ps) != (CategoriesPanel in ps)
  {
    (if tab == PaymentMethodsTab then {PaymentMethodsPanel} else {CategoriesPanel})
    + (if tab == DataTab then {DataPanel} else {})
  }

  /** On the data tab the category manager is shown above the data panel. */
  lemma DataTabAlsoShowsCategories()
    ensures PanelsAsWritten(DataTab) == {CategoriesPanel, DataPanel}
  {
  }

  /** The panel each tab selects. */
  function PanelFor(tab: SettingsTab): Panel {
    match tab
    case PaymentMethodsTab => PaymentMethodsPanel
    case CategoriesTab => CategoriesPanel
    case DataTab => DataPanel
  }

  /** Each tab shows exactly its own panel. */
  function Panels(tab: SettingsTab): (ps: set<Panel>)
    ensures ps == {PanelFor(tab)}
    ensures forall t :: PanelFor(t) in ps <==> t == tab
  {
    match tab
    case PaymentMethodsTab => {PaymentMethodsPanel}
    case CategoriesTab => {CategoriesPanel}
    case DataTab => {DataPanel}
  }

  /** The two definitions agree on every tab but the data tab. */
  lemma PanelsAgreeOffDataTab(tab: SettingsTab)
    requires tab != DataTab
    ensures PanelsAsWritten(tab) == Panels(tab)
  {
  }

  // ---------------------------------------------------------------- payment methods

  datatype MethodForm = MethodForm(name: string, kind: PaymentType, color: string)

  const DefaultMethodForm: MethodForm := MethodForm("", Credit, "bg-indigo-500")

  /**
   * Submitting the payment-method form: the `required` name field blocks an
   * empty name; otherwise the method is added and the form is reset.
   */
  function SubmitMethod(s: AppState, f: MethodForm, id: Id): (r: (AppState, MethodForm))
    requires Seqs.FreshIn(id, s.paymentMethods, PaymentMethodId)
    ensures f.name == "" ==> r == (s, f)
    ensures f.name != "" ==>
      r.1 == DefaultMethodForm
      && r.0 == s.(paymentMethods := s.paymentMethods + [PaymentMethod(id, f.name, f.kind, f.color)])
  {
    if f.name == "" then (s, f)
    else (Store.AddPaymentMethod(s, PaymentMethod(0, f.name, f.kind, f.color), id), DefaultMethodForm)
  }

  /** The reset form adds a credit card coloured 'bg-indigo-500' unless its type or colour is changed. */
  lemma DefaultMethodIsCredit(s: AppState, name: string, id: Id)
    requires name != "" && Seqs.FreshIn(id, s.paymentMethods, PaymentMethodId)
    ensures var r := SubmitMethod(s, DefaultMethodForm.(name := name), id).0;
      r.paymentMethods[|r.paymentMethods| - 1] == PaymentMethod(id, name, Credit, "bg-indigo-500")
  {
  }

  // ---------------------------------------------------------------- categories

  datatype CategoryForm = CategoryForm(name: string, kind: CategoryType, color: string, budgetBand: BudgetBand)

  const DefaultCategoryForm: CategoryForm := CategoryForm("", Expense, "bg-indigo-500", EstiloVida)

  /** The category form and whether it is open. */
  datatype CategoryUi = CategoryUi(form: CategoryForm, isAdding: bool)

  /** The record the form sends; the store assigns the id and empty subcategories. */
  function CategoryFromForm(f: CategoryForm): Category {
    Category(0, f.name, f.color, f.kind, Some(f.budgetBand), [])
  }

  /**
   * Submitting the category form: the `required` name field blocks an empty
   * name; otherwise the category is added, and the form is reset and closed.
   */
  function SubmitCategory(s: AppState, ui: CategoryUi, id: Id): (r: (AppState, CategoryUi))
    requires Seqs.FreshIn(id, s.categories, CategoryId)
    ensures ui.form.name == "" ==> r == (s, ui)
    ensures ui.form.name != "" ==>
      r.1 == CategoryUi(DefaultCategoryForm, false)
      && r.0 == s.(categories := s.categories
                   + [Category(id, ui.form.name, ui.form.color, ui.form.kind, Some(ui.form.budgetBand), [])])
  {
    if ui.form.name == "" then (s, ui)
    else (Store.AddCategory(s, CategoryFromForm(ui.form), id), CategoryUi(DefaultCategoryForm, false))
  }

  function IsExpenseCategory(c: Category): bool {
    c.kind == Expense
  }

  /** The cards the manager lists: expense categories only, in stored order. */
  function ListedCategories(cats: seq<Category>): (r: seq<Category>)
    ensures forall c :: c in r <==> c in cats && c.kind == Expense
    ensures Seqs.IsSubsequence(r, cats)
  {
    Seqs.Filter(cats, IsExpenseCategory)
  }

  /**
   * The form has no type choice, so a category it adds is an expense category
   * in the lifestyle band, and it is listed last.
   */
  lemma AddedCategoryIsListed(s: AppState, name: string, color: string, id: Id)
    requires name != "" && Seqs.FreshIn(id, s.categories, CategoryId)
    ensures var ui := CategoryUi(DefaultCategoryForm.(name := name, color := color), true);
      var r := SubmitCategory(s, ui, id).0;
      var listed := ListedCategories(r.categories);
      listed == ListedCategories(s.categories) + [Category(id, name, color, Expense, Some(EstiloVida), [])]
  {
    var c := Category(id, name, color, Expense, Some(EstiloVida), []);
    Seqs.FilterConcat(s.categories, [c], IsExpenseCategory);
    assert Seqs.Filter([c], IsExpenseCategory) == [c] by {
      assert [c][1..] == [];
    }
  }

  // ---------------------------------------------------------------- category card

  /**
   * The subcategory form: text that trims to nothing is ignored; otherwise the
   * trimmed text is added to the card's category and the input is cleared.
   */
  function SubmitSubcategory(s: AppState, categoryId: Id, newSub: string): (r: (AppState, string))
    ensures Text.Trim(newSub) == [] ==> r == (s, newSub)
    ensures Text.Trim(newSub) != [] ==>
      r.1 == "" && r.0 == Store.AddSubcategory(s, categoryId, Text.Trim(newSub))
  {
    if Text.Trim(newSub) != [] then (Store.AddSubcategory(s, categoryId, Text.Trim(newSub)), "")
    else (s, newSub)
  }

  /** A subcategory that gets added is non-empty and already trimmed, and whitespace-only text adds nothing. */
  lemma SubcategoryIsTrimmed(s: AppState, categoryId: Id, newSub: string, k: nat)
    requires k < |s.categories| && s.categories[k].id == categoryId
    ensures var r := SubmitSubcategory(s, categoryId, newSub).0;
      Text.AllWhitespace(newSub) ==> r == s
    ensures var r := SubmitSubcategory(s, categoryId, newSub).0;
      !Text.AllWhitespace(newSub) ==>
        var subs := r.categories[k].subcategories;
        |subs| == |s.categories[k].subcategories| + 1
        && var added := subs[|subs| - 1];
        added != [] && Text.Trim(added) == added && added == Text.Trim(newSub)
  {
    Text.TrimEmptyIff(newSub);
    Text.TrimIdempotent(newSub);
  }

  /** The card's rename state: the text being edited and whether the name is being edited. */
  datatype NameUi = NameUi(editedName: string, isEditing: bool)

  /**
   * Confirming a rename: the name is sent (untrimmed) only when it trims to
   * something and differs from the current name; editing ends either way.
   */
  function SaveName(s: AppState, c: Category, ui: NameUi): (r: (AppState, NameUi))
    ensures !r.1.isEditing && r.1.editedName == ui.editedName
    ensures Text.Trim(ui.editedName) != [] && ui.editedName != c.name ==>
      r.0 == Store.UpdateCategory(s, c.id, CategoryPatch(Some(ui.editedName), None, None, None))
    ensures Text.Trim(ui.editedName) == [] || ui.editedName == c.name ==> r.0 == s
  {
    var s' := if Text.Trim(ui.editedName) != [] && ui.editedName != c.name
              then Store.UpdateCategory(s, c.id, CategoryPatch(Some(ui.editedName), None, None, None))
              else s;
    (s', ui.(isEditing := false))
  }

  /** A rename changes only the names of the categories with that id, and never to whitespace-only text. */
  lemma RenameChangesOnlyName(s: AppState, c: Category, ui: NameUi, k: nat)
    requires k < |s.categories|
    ensures var r := SaveName(s, c, ui).0;
      |r.categories| == |s.categories|
      && r.categories[k] == s.categories[k].(name := r.categories[k].name)
      && (r.categories[k].name != s.categories[k].name ==>
            s.categories[k].id == c.id && r.categories[k].name == ui.editedName && !Text.AllWhitespace(ui.editedName))
  {
    Text.TrimEmptyIff(ui.editedName);
  }

  /** Cancelling a rename restores the current name and ends editing. */
  function CancelEdit(c: Category): (ui: NameUi)
    ensures ui.editedName == c.name && !ui.isEditing
  {
    NameUi(c.name, false)
  }

  /** The fields a band button sends. */
  function BandPatch(band: BudgetBand): CategoryPatch {
    CategoryPatch(None, None, None, Some(band))
  }

  /** A band button sets that band on the card's category and leaves every other field and category alone. */
  lemma BandButtonSetsBand(s: AppState, categoryId: Id, band: BudgetBand, k: nat)
    requires k < |s.categories|
    ensures var r := Store.UpdateCategory(s, categoryId, BandPatch(band));
      |r.categories| == |s.categories|
      && (s.categories[k].id == categoryId ==> r.categories[k] == s.categories[k].(budgetBand := Some(band)))
      && (s.categories[k].id != categoryId ==> r.categories[k] == s.categories[k])
      && r.months == s.months
  {
  }

  /** The 'Basico' button is lit for the basics band; the 'Estilo' button for the lifestyle band or no band. */
  function BasicLit(c: Category): bool {
    c.budgetBand == Some(Basicos)
  }

  function LifestyleLit(c: Category): bool {
    c.budgetBand == Some(EstiloVida) || c.budgetBand.None?
  }

  /** Exactly one band button is lit, and pressing a button lights it. */
  lemma OneBandLit(s: AppState, c: Category, band: BudgetBand, k: nat)
    requires k < |s.categories| && s.categories[k].id == c.id
    ensures BasicLit(c) != LifestyleLit(c)
    ensures var c' := Store.UpdateCategory(s, c.id, BandPatch(band)).categories[k];
      (band == Basicos <==> BasicLit(c')) && (band == EstiloVida <==> LifestyleLit(c'))
  {
    match c.budgetBand
    case None =>
    case Some(b) => assert b == Basicos || b == EstiloVida;
  }

  /** The delete buttons act only after the user confirms. */
  function ConfirmDeleteCategory(s: AppState, categoryId: Id, confirmed: bool): (r: AppState)
    ensures !confirmed ==> r == s
    ensures confirmed ==> r == Store.DeleteCategory(s, categoryId)
  {
    if confirmed then Store.DeleteCategory(s, categoryId) else s
  }

  function ConfirmDeleteSubcategory(s: AppState, categoryId: Id, sub: string, confirmed: bool): (r: AppState)
    ensures !confirmed ==> r == s
    ensures confirmed ==> r == Store.DeleteSubcategory(s, categoryId, sub)
  {
    if confirmed then Store.DeleteSubcategory(s, categoryId, sub) else s
  }

  // ---------------------------------------------------------------- backup import and new year

  const ImportErrorMessage: string := "Error al leer el archivo. Asegúrate de que es un respaldo válido."

  /** What an upload leads to. */
  datatype ImportOutcome = Rejected(message: string) | Declined | Loaded(doc: Document)

  /** The file's basic validation: it must carry months and categories. */
  predicate IsBackup(d: Document) {
    d.months.Some? && d.categories.Some?
  }

  /**
   * An upload: `parsed` is the parsed file (None when it is not JSON), and
   * `confirmed` the answer to the replace prompt.
   */
  function ImportBackup(parsed: Option<Document>, confirmed: bool): (r: ImportOutcome)
    ensures r.Loaded? <==> parsed.Some? && IsBackup(parsed.value) && confirmed
    ensures r.Loaded? ==> r.doc == parsed.value
    ensures r.Rejected? <==> parsed.None? || !IsBackup(parsed.value)
    ensures r.Rejected? ==> r.message == ImportErrorMessage
  {
    if parsed.None? || !IsBackup(parsed.value) then Rejected(ImportErrorMessage)
    else if confirmed then Loaded(parsed.value)
    else Declined
  }

  /** The store after an upload: a loaded document replaces the state (after migration); otherwise nothing changes. */
  function AfterImport(s: AppState, r: ImportOutcome): (s': AppState)
    requires r.Loaded? ==> r.doc.months.Some?
  {
    if r.Loaded? then Store.ToState(Store.Migrate(r.doc)) else s
  }

  /** A document without months or categories never reaches the store. */
  lemma InvalidBackupNeverLoads(s: AppState, d: Document, confirmed: bool)
    requires d.months.None? || d.categories.None?
    ensures ImportBackup(Some(d), confirmed).Rejected?
    ensures AfterImport(s, ImportBackup(Some(d), confirmed)) == s
  {
  }

  /** A downloaded backup, uploaded and confirmed, restores exactly the state it was taken from. */
  lemma BackupRoundTrip(current: AppState, saved: AppState)
    ensures var r := ImportBackup(Some(Store.ToDocument(saved)), true);
      r.Loaded? && AfterImport(current, r) == saved
  {
    Store.DocumentRoundTrip(saved);
  }

  /** The new-year button: after confirmation, the year's months and schedule are reset (the backup download is not modelled). */
  function HandleNewYear(s: AppState, confirmed: bool): (r: AppState)
    ensures !confirmed ==> r == s
    ensures confirmed ==>
      (r == s.(months := r.months, schedule := []) && |r.months| == 12
       && TotalIncome(r.months) == 0 && TotalExpense(r.months) == 0)
    ensures confirmed ==> r.months == InitialData.Months
  {
    if confirmed then Store.StartNewYear(s) else s
  }
}
