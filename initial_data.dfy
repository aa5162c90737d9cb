/** The seed document a first visit starts from, and the template for a new year. */
module InitialData {
  import opened Wrappers
  import opened Model
  import Seqs

  const MonthNames: seq<string> := [
    "Enero", "Febrero", "Marzo", "Abril", "Mayo", "Junio",
    "Julio", "Agosto", "Septiembre", "Octubre", "Noviembre", "Diciembre"
  ]

  function EmptyMonth(name: string): Month {
    Month(name, [], [], [], Some([]))
  }

  /** `months.map(m => ({ name: m, pianoClasses: [], expenses: [], incomes: [], savings: [] }))`. */
  function MonthsFrom(names: seq<string>): (ms: seq<Month>)
    ensures |ms| == |names|
    ensures forall i :: 0 <= i < |ms| ==> ms[i] == EmptyMonth(names[i])
  {
    seq(|names|, i requires 0 <= i < |names| => EmptyMonth(names[i]))
  }

  const Months: seq<Month> := MonthsFrom(MonthNames)

  const Categories: seq<Category> := [
    Category(1, "Hogar", "bg-blue-500", Expense, Some(Basicos), ["Alquiler", "Gastos Comunes", "Mantenimiento"]),
    Category(2, "Transporte", "bg-green-500", Expense, Some(Basicos), ["Bencina", "Uber/Taxi", "Transporte Público"]),
    Category(3, "Familia", "bg-yellow-500", Expense, Some(Basicos), ["Supermercado", "Restaurante", "Delivery"]),
    Category(4, "Salud", "bg-red-500", Expense, Some(Basicos), ["Medicamentos", "Consultas", "Exámenes"]),
    Category(5, "Educación", "bg-purple-500", Expense, Some(EstiloVida), ["Cursos", "Materiales"]),
    Category(6, "Ocio", "bg-pink-500", Expense, Some(EstiloVida), ["Cine", "Salidas", "Streaming"]),
    Category(7, "Clases de Piano", "bg-indigo-500", Income, None, []),
    Category(8, "Otros Ingresos", "bg-teal-500", Income, None, [])
  ]

  const PaymentMethods: seq<PaymentMethod> := [
    PaymentMethod(1, "Efectivo", Cash, "bg-emerald-500"),
    PaymentMethod(2, "Débito", Debit, "bg-blue-500"),
    PaymentMethod(3, "Crédito Visa", Credit, "bg-purple-500")
  ]

  const Brand: BrandSettings := BrandSettings("AbsaPiano", "Music")

  const State: AppState := AppState(2026, Categories, PaymentMethods, [], Months, [], Brand)

  /** The seed as a stored document: every field present. */
  const Doc: Document := Document(2026, Some(Categories), Some(PaymentMethods), Some([]), Some(Months), Some([]), Some(Brand))

  // ---------------------------------------------------------------- facts about the seed

  /** Twelve months, Enero through Diciembre in calendar order, all empty. */
  lemma MonthsAreTwelveEmpty()
    ensures |Months| == 12
    ensures Months[0].name == "Enero" && Months[11].name == "Diciembre"
    ensures forall i :: 0 <= i < |Months| ==> Months[i].name == MonthNames[i]
    ensures forall i, j :: 0 <= i < j < |Months| ==> Months[i].name != Months[j].name
    ensures forall m :: m in Months ==>
      m.pianoClasses == [] && m.expenses == [] && m.incomes == [] && m.savings == Some([])
  {
  }

  /** The seed months add up to no income and no expense. */
  lemma MonthsHaveZeroTotals()
    ensures TotalIncome(Months) == 0 && TotalExpense(Months) == 0
  {
    Seqs.SumByZero(Months, MonthIncome);
    Seqs.SumByZero(Months, MonthExpense);
  }

  /** Ids 1..8 in order; 1-4 basic expenses, 5-6 lifestyle expenses, 7-8 incomes with no subcategories. */
  lemma CategoriesShape()
    ensures |Categories| == 8
    ensures forall i :: 0 <= i < |Categories| ==> Categories[i].id == i + 1
    ensures Seqs.DistinctKeys(Categories, CategoryId)
    ensures forall c :: c in Categories && 1 <= c.id <= 4 ==> c.kind == Expense && c.budgetBand == Some(Basicos)
    ensures forall c :: c in Categories && 5 <= c.id <= 6 ==> c.kind == Expense && c.budgetBand == Some(EstiloVida)
    ensures forall c :: c in Categories && 7 <= c.id <= 8 ==> c.kind == Income && c.subcategories == []
  {
  }

  /** Ids 1..3 in order, with types cash, debit and credit. */
  lemma PaymentMethodsShape()
    ensures |PaymentMethods| == 3
    ensures forall i :: 0 <= i < |PaymentMethods| ==> PaymentMethods[i].id == i + 1
    ensures Seqs.DistinctKeys(PaymentMethods, PaymentMethodId)
    ensures PaymentMethods[0].kind == Cash && PaymentMethods[1].kind == Debit && PaymentMethods[2].kind == Credit
  {
  }

  lemma StateShape()
    ensures State.year == 2026
    ensures State.studentDb == [] && State.schedule == []
    ensures State.brandSettings.name == "AbsaPiano" && State.brandSettings.icon == "Music"
    ensures State.months == Months && State.categories == Categories && State.paymentMethods == PaymentMethods
  {
  }
}
