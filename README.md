# AbsaPiano finance store — a Dafny model

AbsaPiano is a single-page app that a piano teacher uses to keep a year of finances. The year has twelve months. Each month holds:

- piano classes (student, rate, count, total, status 'Pendiente' / 'Al día', payment date);
- incomes and expenses (amount, category, subcategory, payment method, date);
- optionally, savings.

Beside the months the app keeps:

- a roster of students with their billing data;
- expense and income categories with subcategories and a 50/30/20 budget band;
- payment methods;
- a weekly class schedule;
- the brand shown in the sidebar.

All of it lives in one state object, held by a React context that is saved to local storage.

This project models that store and the decisions the views make over it:

- **Store.** The store's operations are pure next-state functions (`Store`). They are wrapped by a class `FinanceContext.FinanceStore` whose one field `data` the methods reassign, as `setData` does. The migration flag loop and the annual-summary loops are imperative methods.
- **Seed data.** The seed document is a set of constants (`InitialData`).
- **Views.** Each view module holds the records a view builds and the guards it applies before it calls the store:
  - the piano-class table: toggle, add, row save;
  - the month page: summary, add-transaction guard, category menus;
  - the dashboard: summary loop and chart rows;
  - the 50/30/20 budget chart: the expense loop, the category breakdown, thresholds and colours;
  - the weekly schedule: time-slot loop, day columns, add/edit, the student menu;
  - the settings page: forms, guards, band buttons, backup import, new year;
  - the tax-invoice roster: search, add, row save;
  - the sidebar brand: fallback, icon cycle, rename.

Conventions:

- Amounts are integers (Chilean pesos).
- Ids are integers.
- Status, category type, payment type and budget band are datatypes.
- A stored or uploaded file is a `Document` whose top-level fields may be missing (`Option`).
- The working state is an `AppState` in which every field is present.
- The fresh ids that the source takes from `Date.now()` and `Math.random()` are parameters, with a precondition that the id is not yet used in the list it joins. So is "today" (`new Date().toISOString()`).
- Module layout:
  - `wrappers.dfy`: `Option`;
  - `seqs.dfy`: filter, stable sort, sums, find by key, merge and remove by key;
  - `text.dfy`: the JavaScript string built-ins used (trim, toLowerCase, includes, localeCompare on time strings, padStart, String(n));
  - `model.dfy`: entities, patches, month sums;
  - `initial_data.dfy`, `store.dfy`, `finance_context.dfy`;
  - one file per view.

## Model

| member | source | states |
|---|---|---|
| FinanceContext.MigrationEffect | src/context/FinanceContext.jsx:14-39 | The `updated` flag is raised exactly when one of categories, paymentMethods, schedule or brandSettings is missing. The new data is the migrated document. Without the flag the data is returned unchanged. |
| FinanceContext.FinanceStore.constructor | src/context/FinanceContext.jsx:11 | The store starts from the stored document after migration, or from the seed state when nothing is stored. |
| FinanceContext.FinanceStore.UpdateData | src/context/FinanceContext.jsx:291 | `updateData` replaces the whole state. |
| FinanceContext.FinanceStore.AddTransaction | src/context/FinanceContext.jsx:42-50 | The new state is `Store.AddTransaction` of the old one. |
| FinanceContext.FinanceStore.AddPianoClass | src/context/FinanceContext.jsx:53-57 | The new state is `Store.AddPianoClass` of the old one. |
| FinanceContext.FinanceStore.UpdatePianoClass | src/context/FinanceContext.jsx:59-69 | The new state is `Store.UpdatePianoClass` of the old one: the array slot assignment at the `findIndex` position. |
| FinanceContext.FinanceStore.DeletePianoClass | src/context/FinanceContext.jsx:71-75 | The new state is `Store.DeletePianoClass` of the old one. |
| FinanceContext.FinanceStore.DeleteTransaction | src/context/FinanceContext.jsx:77-85 | The new state is `Store.DeleteTransaction` of the old one. |
| FinanceContext.FinanceStore.GetAnnualSummary | src/context/FinanceContext.jsx:88-110 | The loops over months, expenses, incomes and classes return the year's income (incomes plus class totals, whatever the status), the year's expense, and balance = income − expense. |
| FinanceContext.FinanceStore.AddStudentToDb | src/context/FinanceContext.jsx:113-116 | The new state is `Store.AddStudentToDb` of the old one. |
| FinanceContext.FinanceStore.UpdateStudentInDb | src/context/FinanceContext.jsx:118-123 | The new state is `Store.UpdateStudentInDb` of the old one. |
| FinanceContext.FinanceStore.DeleteStudentInDb | src/context/FinanceContext.jsx:125-128 | The new state is `Store.DeleteStudentInDb` of the old one. |
| FinanceContext.FinanceStore.ImportStudentsToMonth | src/context/FinanceContext.jsx:130-153 | The new state and the returned count are those of `Store.ImportStudentsToMonth`. |
| FinanceContext.FinanceStore.ImportSpecificStudents | src/context/FinanceContext.jsx:155-178 | The new state and the returned count are those of `Store.ImportSpecificStudents`. |
| FinanceContext.FinanceStore.AddPaymentMethod | src/context/FinanceContext.jsx:181-184 | The new state is `Store.AddPaymentMethod` of the old one. |
| FinanceContext.FinanceStore.UpdatePaymentMethod | src/context/FinanceContext.jsx:186-191 | The new state is `Store.UpdatePaymentMethod` of the old one. |
| FinanceContext.FinanceStore.DeletePaymentMethod | src/context/FinanceContext.jsx:193-196 | The new state is `Store.DeletePaymentMethod` of the old one. |
| FinanceContext.FinanceStore.AddSubcategory | src/context/FinanceContext.jsx:199-207 | The new state is `Store.AddSubcategory` of the old one. |
| FinanceContext.FinanceStore.AddCategory | src/context/FinanceContext.jsx:209-212 | The new state is `Store.AddCategory` of the old one. |
| FinanceContext.FinanceStore.UpdateCategory | src/context/FinanceContext.jsx:214-219 | The new state is `Store.UpdateCategory` of the old one. |
| FinanceContext.FinanceStore.DeleteCategory | src/context/FinanceContext.jsx:221-224 | The new state is `Store.DeleteCategory` of the old one. |
| FinanceContext.FinanceStore.DeleteSubcategory | src/context/FinanceContext.jsx:226-237 | The new state is `Store.DeleteSubcategory` of the old one. |
| FinanceContext.FinanceStore.AddScheduleEntry | src/context/FinanceContext.jsx:240-243 | The new state is `Store.AddScheduleEntry` of the old one. |
| FinanceContext.FinanceStore.UpdateScheduleEntry | src/context/FinanceContext.jsx:245-250 | The new state is `Store.UpdateScheduleEntry` of the old one. |
| FinanceContext.FinanceStore.DeleteScheduleEntry | src/context/FinanceContext.jsx:252-255 | The new state is `Store.DeleteScheduleEntry` of the old one. |
| FinanceContext.FinanceStore.UpdateBrandSettings | src/context/FinanceContext.jsx:257-265 | The new state is `Store.UpdateBrandSettings` of the old one. |
| FinanceContext.FinanceStore.LoadData | src/context/FinanceContext.jsx:268-270 | The state becomes the loaded document as the migration effect then completes it. |
| FinanceContext.FinanceStore.StartNewYear | src/context/FinanceContext.jsx:272-287 | The new state is `Store.StartNewYear` of the old one. |
| Store.AddTransaction | src/context/FinanceContext.jsx:42-50 | Only month `i` changes. The transaction, with the fresh id, is appended to expenses when the type is 'expense' and to incomes for any other type. The year's expense (respectively income) rises by its amount and the other total is unchanged. |
| Store.DeleteTransaction | src/context/FinanceContext.jsx:77-85 | Only the chosen list of month `i` changes. It keeps, in order, exactly the transactions whose id differs. |
| Store.DeleteUndoesAddTransaction | src/context/FinanceContext.jsx:42-85 | Deleting a transaction just added under a fresh id gives back the original state. |
| Store.AddPianoClass | src/context/FinanceContext.jsx:53-57 | Only month `i` changes. The class is appended with the fresh id. The year's income rises by the class total and the expense is unchanged. |
| Store.UpdatePianoClass | src/context/FinanceContext.jsx:59-69 | The patch is merged onto the first class carrying the id; every other class and month is unchanged. An unknown id leaves the state unchanged. |
| Store.DeletePianoClass | src/context/FinanceContext.jsx:71-75 | Only month `i`'s classes change. They keep, in order, exactly the classes whose id differs. |
| Store.DeleteUndoesAddPianoClass | src/context/FinanceContext.jsx:53-75 | Deleting a class just added under a fresh id gives back the original state. |
| Store.UpdateWithoutTotalKeepsIncome | src/context/FinanceContext.jsx:59-69 | The update does not recompute `total`. A patch without a total leaves the year's income and expense unchanged, whatever it sets rate or count to. |
| Store.AddStudentToDb | src/context/FinanceContext.jsx:113-116 | The student is appended with the fresh id and `active` forced to true. The roster grows by one and nothing else changes. |
| Store.UpdateStudentInDb | src/context/FinanceContext.jsx:118-123 | Every roster entry with the id gets the patch merged onto it. The others, and the length, are unchanged. An unknown id is a no-op. |
| Store.DeleteStudentInDb | src/context/FinanceContext.jsx:125-128 | The roster keeps, in order, exactly the students whose id differs. |
| Store.DeleteUndoesAddStudent | src/context/FinanceContext.jsx:113-128 | Deleting a student just added under a fresh id gives back the original state. |
| Store.DeleteAfterUpdateStudent | src/context/FinanceContext.jsx:118-128 | An update followed by a delete of the same id equals the delete alone, because merges keep ids. |
| Store.Newcomers | src/context/FinanceContext.jsx:134-135 | The pool students with no month class of the same studentId or studentName, in pool order. |
| Store.NewClasses | src/context/FinanceContext.jsx:136-145 | One class per newcomer. |
| Store.ImportPool | src/context/FinanceContext.jsx:130-178 | The count is the number of newcomers. The month's classes become the old ones followed by one class per newcomer. A count of 0 leaves the state unchanged. |
| Store.ImportStudentsToMonth | src/context/FinanceContext.jsx:130-153 | The count is the number of active roster students without a class in the month. |
| Store.ImportSpecificStudents | src/context/FinanceContext.jsx:155-178 | The count is the number of roster students whose id was picked (active or not) and that have no class in the month. |
| Store.ImportPoolAdds | src/context/FinanceContext.jsx:134-150 | The existing classes stay first. Exactly one class is added per newcomer, in roster order. Each copies studentId and studentName, has rate = defaultRate, count 4, total = 4·defaultRate, status 'Pendiente' and duration = the student's or '1 hora'. |
| Store.ImportCoversPool | src/context/FinanceContext.jsx:134-150 | After an import, every pool student has a class in the month. |
| Store.ImportPoolTwice | src/context/FinanceContext.jsx:147 | Importing the same pool again straight away returns 0 and leaves the state unchanged. |
| Store.ImportStudentsTwiceReturnsZero | src/context/FinanceContext.jsx:130-153 | A second `importStudentsToMonth` right after the first returns 0 and changes nothing. |
| Store.ImportSpecificTwiceReturnsZero | src/context/FinanceContext.jsx:155-178 | A second `importSpecificStudents` with the same ids returns 0 and changes nothing. |
| Store.AddPaymentMethod | src/context/FinanceContext.jsx:181-184 | The method is appended with the fresh id; nothing else changes. |
| Store.UpdatePaymentMethod | src/context/FinanceContext.jsx:186-191 | The patch is merged onto the methods with the id; the others are unchanged; an unknown id is a no-op. |
| Store.DeletePaymentMethod | src/context/FinanceContext.jsx:193-196 | The methods keep, in order, exactly those whose id differs. |
| Store.DeleteUndoesAddPaymentMethod | src/context/FinanceContext.jsx:181-196 | Deleting a method just added under a fresh id gives back the original state. |
| Store.DeleteAfterUpdatePaymentMethod | src/context/FinanceContext.jsx:186-196 | An update followed by a delete of the same id equals the delete alone. |
| Store.AddSubcategory | src/context/FinanceContext.jsx:199-207 | The name is appended to the subcategories of the categories with the id; every other category is unchanged. |
| Store.AddCategory | src/context/FinanceContext.jsx:209-212 | The category is appended with the fresh id and no subcategories, whatever it carried. |
| Store.UpdateCategory | src/context/FinanceContext.jsx:214-219 | The patch is merged onto the categories with the id; the others are unchanged; an unknown id is a no-op. |
| Store.DeleteCategory | src/context/FinanceContext.jsx:221-224 | The categories keep, in order, exactly those whose id differs; the months are unchanged. |
| Store.DeleteSubcategory | src/context/FinanceContext.jsx:226-237 | In the categories with the id, every copy of the name is removed and every copy of the other names is kept, in order. Every other category is unchanged. |
| Store.DropSubcategoryCounts | src/context/FinanceContext.jsx:231 | Filtering out a name leaves no copy of it and the same number of copies of each other name. |
| Store.DeleteUndoesAddCategory | src/context/FinanceContext.jsx:209-224 | Deleting a category just added under a fresh id gives back the original state. |
| Store.DeleteUndoesAddSubcategory | src/context/FinanceContext.jsx:199-237 | Removing a subcategory just added to a category that lacked it gives back the original state. |
| Store.DeleteCategoryLeavesDanglingIds | src/context/FinanceContext.jsx:221-224 | A transaction of the deleted category stays in its month, and its categoryId now names no category. |
| Store.AddScheduleEntry | src/context/FinanceContext.jsx:240-243 | The entry is appended with the fresh id; nothing else changes. |
| Store.UpdateScheduleEntry | src/context/FinanceContext.jsx:245-250 | The patch is merged onto the entries with the id; the others are unchanged; an unknown id is a no-op. |
| Store.DeleteScheduleEntry | src/context/FinanceContext.jsx:252-255 | The schedule keeps, in order, exactly the entries whose id differs. |
| Store.DeleteUndoesAddScheduleEntry | src/context/FinanceContext.jsx:240-255 | Deleting an entry just added under a fresh id gives back the original state. |
| Store.DeleteAfterUpdateScheduleEntry | src/context/FinanceContext.jsx:245-255 | An update followed by a delete of the same id equals the delete alone. |
| Store.UpdateBrandSettings | src/context/FinanceContext.jsx:257-265 | Each given field of the brand is replaced; an absent one keeps its value; the rest of the state is unchanged. |
| Store.StartNewYear | src/context/FinanceContext.jsx:272-287 | The months become the twelve fresh seed months and the schedule becomes empty. Year, roster, categories, methods and brand are unchanged. The new year totals zero income and zero expense. |
| Store.Migrate | src/context/FinanceContext.jsx:14-34 | Each of categories, paymentMethods, schedule and brandSettings is filled from the seed when missing and kept when present. Year, roster and months are untouched. The result needs no further migration. |
| Store.NeedsMigration | src/context/FinanceContext.jsx:18-33 | Defines when the migration has work to do: categories, payment methods, schedule or brand settings is missing. `Store.MigrateChangesIff` ties it to a change. |
| Store.MigrateChangesIff | src/context/FinanceContext.jsx:35-38 | The migration changes a document exactly when one of the fields it fills is missing. |
| Store.MigrateIdempotent | src/context/FinanceContext.jsx:14-39 | Migrating a migrated document changes nothing. |
| Store.ToState | src/context/FinanceContext.jsx:11 | Once a document has months and every migrated field, it stands for the state holding those fields; a missing roster is empty. |
| Store.ToDocument | src/context/FinanceContext.jsx:11 | The saved form of a state has every field present and needs no migration. |
| Store.DocumentRoundTrip | src/context/FinanceContext.jsx:11-39 | Saving a state and loading it back, migration included, gives the same state. |
| Store.InitialDocumentIsSeed | src/utils/initialData.js:24-41 | Loading the seed document gives the seed state. |
| Model.MonthTotalsAfterClass | src/context/FinanceContext.jsx:55 | Appending a class raises the month's income by its total and leaves its expense unchanged. |
| Model.TotalsAfterMonthUpdate | src/context/FinanceContext.jsx:92-103 | Replacing one month shifts the year's totals by exactly that month's differences. |
| Model.MonthIncome | src/context/FinanceContext.jsx:96-102 | Defines a month's income: its income amounts plus its class totals, whatever their status. `MonthView.GetMonthSummary` and `FinanceContext.FinanceStore.GetAnnualSummary` are stated in these terms. |
| Model.MonthExpense | src/context/FinanceContext.jsx:94 | Defines a month's expense: the sum of its expense amounts. |
| InitialData.MonthsFrom | src/utils/initialData.js:29-35 | One empty month per name, in order. |
| InitialData.MonthsAreTwelveEmpty | src/utils/initialData.js:2-5 | There are twelve months, Enero to Diciembre in calendar order, with distinct names. Each has no classes, expenses or incomes and an empty savings list. |
| InitialData.MonthsHaveZeroTotals | src/utils/initialData.js:29-35 | The seed year totals zero income and zero expense. |
| InitialData.CategoriesShape | src/utils/initialData.js:7-16 | There are eight categories with unique ids 1..8 in order. Ids 1-4 are basic expenses, 5-6 lifestyle expenses, and 7-8 incomes without subcategories. |
| InitialData.PaymentMethodsShape | src/utils/initialData.js:18-22 | There are three methods with unique ids 1..3, of types cash, debit and credit. |
| InitialData.StateShape | src/utils/initialData.js:24-41 | The seed state has year 2026, an empty roster and schedule, and brand AbsaPiano / Music, and it holds the seed months, categories and methods. |
| PianoClassesTable.ClassFromForm | src/components/PianoClassesTable.jsx:31-32 | The class sent carries the form's fields and total = rate · count. |
| PianoClassesTable.HandleAdd | src/components/PianoClassesTable.jsx:29-35 | The class is added to the month and the year's income rises by rate · count. The form resets to rate 35000, count 4, '45 min', 'Pendiente'. |
| PianoClassesTable.TogglePatch | src/components/PianoClassesTable.jsx:37-41 | From 'Pendiente' the patch sets 'Al día' and today's date. From any other status it sets 'Pendiente' and a null date. It touches no other field. |
| PianoClassesTable.Toggled | src/components/PianoClassesTable.jsx:37-41 | A toggle changes only the status and payment date. |
| PianoClassesTable.ToggleTwice | src/components/PianoClassesTable.jsx:37-41 | Two toggles from 'Pendiente' give back 'Pendiente' with a null payment date. |
| PianoClassesTable.ToggleInStore | src/components/PianoClassesTable.jsx:40 | Through the store, the first class with that id is toggled and nothing else changes. |
| PianoClassesTable.EditFormFor | src/components/PianoClassesTable.jsx:195-201 | The row form copies name, rate and count, with duration '1 hora' and payment date '' when absent. |
| PianoClassesTable.SavePatch | src/components/PianoClassesTable.jsx:203-206 | The save sends the edited name, rate, count, duration and date, plus total = edited rate · edited count, and leaves the status alone. |
| PianoClassesTable.SaveMakesTotalConsistent | src/components/PianoClassesTable.jsx:203-206 | After a row save through the store, the edited class's total is its rate times its count. |
| PianoClassesTable.MountRow | src/components/PianoClassesTable.jsx:193-201 | A row mounts showing its class, with the edit form built from that class. |
| PianoClassesTable.SaveRow | src/components/PianoClassesTable.jsx:203-206 | A save writes the form's name, rate, count, duration and date over the shown class, with total = rate · count, and keeps its status. |
| PianoClassesTable.ToggleRowAsWritten | src/components/PianoClassesTable.jsx:195-201 | As written, a toggle changes the shown class and leaves the form as it was at mount. |
| PianoClassesTable.StaleFormWipesPaymentDate | src/components/PianoClassesTable.jsx:195-206 | A class with no date marked 'Al día' and then saved from its row ends with payment date '', not the toggle's date. |
| PianoClassesTable.ToggleRow | src/components/PianoClassesTable.jsx:195-201 | Corrected, a toggle re-reads the form from the row's new class. |
| PianoClassesTable.FreshFormKeepsToggle | src/components/PianoClassesTable.jsx:195-206 | With the form re-read, a save after a toggle keeps the status and date the toggle set. |
| BudgetChart.BandsPartitionExpense | src/components/BudgetChart.jsx:82-97 | The basic band (category ids 1-4) plus the lifestyle band (every other category) equals the month's expense. |
| BudgetChart.SavingsTotal | src/components/BudgetChart.jsx:90 | The sum of the savings amounts; a month without a savings list counts 0. |
| BudgetChart.FindCategory | src/components/BudgetChart.jsx:72 | The category found has the id, and none is found exactly when no category has it. |
| BudgetChart.AddExpenseShape | src/components/BudgetChart.jsx:77-80 | One loop step either adds the amount to the existing entry of the category or appends a new entry holding the amount. |
| BudgetChart.AccumulateKeys | src/components/BudgetChart.jsx:69-87 | The breakdown has no two entries for one category, and has an entry for exactly the categories that occur among the expenses. |
| BudgetChart.AccumulateLabels | src/components/BudgetChart.jsx:73-78 | Each entry carries its category's name and colour, with 'Otros' and 'bg-slate-500' for an unknown category. |
| BudgetChart.LabelName | src/components/BudgetChart.jsx:73 | Defines an entry's name: the category's name, or 'Otros' for a missing category or an empty name. |
| BudgetChart.LabelColor | src/components/BudgetChart.jsx:74 | Defines an entry's colour: the category's colour, or 'bg-slate-500' for a missing category or an empty colour. |
| BudgetChart.AddExpenseAmounts | src/components/BudgetChart.jsx:80 | One loop step keeps every entry equal to the sum of its category's expenses so far. |
| BudgetChart.AccumulateAmounts | src/components/BudgetChart.jsx:69-87 | Each entry's amount is the sum of its category's expenses. |
| BudgetChart.AddExpenseTotal | src/components/BudgetChart.jsx:80 | One loop step raises the entries' total by exactly the expense amount. |
| BudgetChart.AccumulateTotal | src/components/BudgetChart.jsx:69-97 | The entries' amounts add up to the month's expense total. |
| BudgetChart.ObjectValues | src/components/BudgetChart.jsx:107 | `Object.values` gives back the same entries. |
| BudgetChart.ObjectValuesOrder | src/components/BudgetChart.jsx:107 | The entries come in JavaScript property order: array-index keys ascending, then the other keys in creation order. |
| BudgetChart.BreakdownFacts | src/components/BudgetChart.jsx:69-107 | The breakdown is sorted by descending amount, with one entry per category occurring among the expenses. Each entry holds that category's sum and label, and the entries add up to the month's expense. |
| BudgetChart.Breakdown | src/components/BudgetChart.jsx:107 | Defines the breakdown: the accumulated entries in `Object.values` order, sorted by descending amount. `BudgetChart.BreakdownFacts` states what it holds. |
| BudgetChart.BreakdownSortedDistinct | src/components/BudgetChart.jsx:107 | The breakdown is sorted by descending amount and has no two entries for one category. |
| BudgetChart.BreakdownSameEntries | src/components/BudgetChart.jsx:107 | The breakdown holds the accumulated entries, each as often as accumulated, only reordered. |
| BudgetChart.AddExpenseKeys | src/components/BudgetChart.jsx:77-80 | One expense step keeps entries distinct, and the categories with an entry gain exactly the expense's category. |
| BudgetChart.ObjectValuesDistinct | src/components/BudgetChart.jsx:107 | Reordering by `Object.values` keeps the keys distinct. |
| BudgetChart.ExpensePrefixStep | src/components/BudgetChart.jsx:69-87 | Processing one more expense is one loop step on the breakdown and one addition to each band. |
| BudgetChart.AddToBreakdown | src/components/BudgetChart.jsx:77-80 | The loop body's update of the breakdown object is one `AddExpense` step. |
| BudgetChart.ScanExpenses | src/components/BudgetChart.jsx:63-87 | The expense loop leaves the basic band (ids 1-4), the lifestyle band (every other id) and the breakdown object after all the expenses. |
| BudgetChart.ComputeBudget | src/components/BudgetChart.jsx:56-110 | The chart's figures: income = class totals + incomes; the basic and lifestyle bands split by category id; total expenses = the month's expense; savings; the sorted breakdown. |
| BudgetChart.DivLeIff | src/components/BudgetChart.jsx:136 | Comparing a quotient with a threshold is comparing the numerator with the threshold times the divisor, with the divisor's sign. |
| BudgetChart.LevelMatchesRatio | src/components/BudgetChart.jsx:134-148 | The integer test agrees with the exact ratio spent / ideal: neutral when the ideal is 0, ≤ 1 within, in (1, 1.15] slightly over, > 1.15 over. |
| BudgetChart.LevelOf | src/components/BudgetChart.jsx:134-148 | Defines a band's level by integer comparisons: no ideal, within, slightly over or over. `BudgetChart.LevelMatchesRatio` ties it to the ratio. |
| BudgetChart.StatusIcon | src/components/BudgetChart.jsx:134-140 | Defines `getStatusIcon` per level: Info/slate, check/emerald, alert/amber, alert/rose. |
| BudgetChart.BarColor | src/components/BudgetChart.jsx:142-148 | Defines `getBarColor` per level: slate, emerald, amber, rose. |
| BudgetChart.BandIndicators | src/components/BudgetChart.jsx:134-148 | Zero income shows Info / slate. Otherwise the bar is emerald exactly when the ratio is ≤ 1 and rose exactly when it is > 1.15, and the alert icon shows exactly when the ratio is > 1. |
| BudgetChart.TailwindToHex | src/components/BudgetChart.jsx:385-407 | A mapped class gives its hex colour and any other class '#64748b'. |
| BudgetChart.DonutValues | src/components/BudgetChart.jsx:113-125 | With no positive band and no income the values are the placeholder 50/30/20. In every other case they are exactly the three bands clamped at zero. |
| BudgetChart.Max0 | src/components/BudgetChart.jsx:114 | `Math.max(x, 0)`: at least 0 and at least x, and equal to one of them. |
| Dashboard.Abbrev | src/components/Dashboard.jsx:26 | `substring(0, 3)`: the first three characters, or the whole name when shorter. |
| Dashboard.ComputeSummary | src/components/Dashboard.jsx:14-34 | The year's income and expense, balance = income − expense. There is one chart row per month, in order, with its abbreviation, full name, income and expense. The rows add up to the year's totals. |
| Dashboard.MatchesAnnualSummary | src/components/Dashboard.jsx:14-34 | The dashboard's totals and balance coincide with the store's `getAnnualSummary`. |
| Dashboard.SeedLabelsDistinct | src/components/Dashboard.jsx:26 | The twelve seed months give twelve different chart labels. |
| MonthView.TypeForTab | src/components/MonthView.jsx:40 | The type is 'expense' exactly on the expenses tab, and 'income' otherwise. |
| MonthView.GetMonthSummary | src/components/MonthView.jsx:23-32 | Income = class totals + incomes; expense = expenses; balance = income − expense. These are the same month figures the dashboard uses. |
| MonthView.TxFromForm | src/components/MonthView.jsx:41 | The transaction carries the form's fields. |
| MonthView.HandleAddTransaction | src/components/MonthView.jsx:36-51 | An empty amount or category changes nothing. Otherwise the transaction goes to the list the tab selects, the form resets, and the year's expense (expenses tab) or income (other tabs) rises by the amount. |
| MonthView.OfferedCategories | src/components/MonthView.jsx:54-56 | The menu offers exactly the categories of the tab's kind, in stored order. |
| MonthView.OfferedCategoriesPartition | src/components/MonthView.jsx:54-56 | The expense menu and the income menu together hold every category exactly once. |
| MonthView.ChangeCategory | src/components/MonthView.jsx:165 | Choosing a category clears the subcategory and keeps the other fields. |
| MonthView.SubcategoryOptions | src/components/MonthView.jsx:174-181 | With a chosen id, the menu lists the subcategories of the first offered category with that id, and is empty when no offered category has it. With no choice it is empty. |
| Schedule.SlotChars | src/components/Schedule.jsx:23 | The slot text for hour h, quarter q is the five characters HH:MM. |
| Schedule.TimeCharsOrder | src/components/Schedule.jsx:23 | Two slot texts compare as their first differing character. |
| Schedule.HourDigitsOrder | src/components/Schedule.jsx:23 | An earlier hour has smaller two-digit text. |
| Schedule.SlotCharsOrder | src/components/Schedule.jsx:21-24 | An earlier (hour, quarter) gives a strictly smaller slot text. |
| Schedule.SlotOrder | src/components/Schedule.jsx:21-24 | An earlier slot is strictly smaller in code-point order. |
| Schedule.SlotIndex | src/components/Schedule.jsx:21-24 | Position k holds hour 8 + k / 4 and quarter k % 4. |
| Schedule.LaidOutSlotAt | src/components/Schedule.jsx:21-24 | Each position of the laid-out list holds its slot. |
| Schedule.FirstSlotChars | src/components/Schedule.jsx:21-22 | The first slot reads "08:00". |
| Schedule.LastSlotChars | src/components/Schedule.jsx:21-22 | The last slot reads "21:45". |
| Schedule.LaidOutSlotsEnds | src/components/Schedule.jsx:20-25 | The list starts at "08:00" and ends at "21:45". |
| Schedule.LaidOutSlotsAscend | src/components/Schedule.jsx:20-25 | The slots are strictly ascending. |
| Schedule.AppendHour | src/components/Schedule.jsx:22-24 | Appends exactly four labels, quarters 0 to 3 of the hour, and keeps what was there before. |
| Schedule.BuildTimeSlots | src/components/Schedule.jsx:20-25 | The list has 56 slots. Position 4(h−8)+q holds hour h, zero-padded, and quarter q. It runs from "08:00" to "21:45" and is strictly ascending. |
| Schedule.TimeLeIsTotalOrder | src/components/Schedule.jsx:89 | Comparing times is total and transitive. |
| Schedule.DayColumnFacts | src/components/Schedule.jsx:87-89 | A column holds exactly the day's entries, each as often as it is stored, sorted by time. |
| Schedule.DayColumn | src/components/Schedule.jsx:87-89 | Defines a day's column: the day's entries sorted by time. `Schedule.DayColumnFacts` states what it holds. |
| Schedule.FindStudent | src/components/Schedule.jsx:34 | The student found has the id, and none is found exactly when no roster student has it. |
| Schedule.SelectStudent | src/components/Schedule.jsx:162-165 | The menu stores the chosen id and the found student's name, or '' when none is found. |
| Schedule.ResolveName | src/components/Schedule.jsx:32-36 | A chosen id on the roster gives that student's name; otherwise the typed name is kept. |
| Schedule.HandleAdd | src/components/Schedule.jsx:27-47 | An empty typed name or time changes nothing. Otherwise the edited entry is updated, or (without editingId) a new entry is added, with the resolved name. The form resets to Lunes, 14:00, '45 min' and closes. |
| Schedule.EditKeepsSlot | src/components/Schedule.jsx:38-59 | Editing an entry and submitting unchanged keeps its id, day and time, and fills a missing duration with '45 min'. |
| Schedule.StartEdit | src/components/Schedule.jsx:49-59 | The form copies the entry, with '45 min' for a missing duration, and opens in edit mode for its id. |
| Settings.PanelsAsWritten | src/components/Settings.jsx:46-94 | As written: the data panel shows exactly on the data tab, and exactly one of the payment and category panels is always shown. |
| Settings.DataTabAlsoShowsCategories | src/components/Settings.jsx:46-79 | On the data tab the category manager is shown as well as the data panel. |
| Settings.Panels | src/components/Settings.jsx:19-40 | Corrected: each tab shows exactly its own panel. |
| Settings.PanelsAgreeOffDataTab | src/components/Settings.jsx:46-94 | The as-written and corrected views agree on every tab except the data tab. |
| Settings.SubmitMethod | src/components/Settings.jsx:103-107 | An empty name (the field is `required`) changes nothing. Otherwise the method is added and the form resets to '', credit, 'bg-indigo-500'. |
| Settings.DefaultMethodIsCredit | src/components/Settings.jsx:101-106 | A method added from the reset form is a credit method coloured 'bg-indigo-500'. |
| Settings.SubmitCategory | src/components/Settings.jsx:212-217 | An empty name changes nothing. Otherwise the category is added and the form resets to expense, 'bg-indigo-500', estiloVida and closes. |
| Settings.ListedCategories | src/components/Settings.jsx:294 | Exactly the expense categories are listed, in order. |
| Settings.AddedCategoryIsListed | src/components/Settings.jsx:210-217 | A category added from the default form is an expense with the lifestyle band, and it is listed. |
| Settings.SubmitSubcategory | src/components/Settings.jsx:315-321 | Whitespace-only text changes nothing. Otherwise the trimmed text is added and the input is cleared. |
| Settings.SubcategoryIsTrimmed | src/components/Settings.jsx:315-321 | An added subcategory is non-empty and trimmed. Whitespace-only input leaves the category as it was. |
| Settings.SaveName | src/components/Settings.jsx:323-329 | A rename is sent only when the trimmed name is non-empty and differs from the current name; editing always ends. |
| Settings.RenameChangesOnlyName | src/components/Settings.jsx:323-329 | A rename changes only the name of the categories with that id, and never to whitespace-only text. |
| Settings.CancelEdit | src/components/Settings.jsx:331-335 | Cancelling restores the current name and ends editing. |
| Settings.BandButtonSetsBand | src/components/Settings.jsx:400-411 | A band button sets that band on the categories with the id and changes nothing else. |
| Settings.OneBandLit | src/components/Settings.jsx:401-412 | Exactly one band button is lit, and pressing one lights it. |
| Settings.ConfirmDeleteCategory | src/components/Settings.jsx:337-342 | Confirmed, the category is deleted. Declined, nothing changes. |
| Settings.ConfirmDeleteSubcategory | src/components/Settings.jsx:344-348 | Confirmed, the subcategory is deleted. Declined, nothing changes. |
| Settings.ImportBackup | src/components/Settings.jsx:519-535 | A file is loaded exactly when it parses, has months and categories, and the user confirms. It is rejected with the error message exactly when it does not parse or lacks either field. |
| Settings.IsBackup | src/components/Settings.jsx:524-526 | Defines the file's validation: it has months and categories. |
| Settings.InvalidBackupNeverLoads | src/components/Settings.jsx:524-526 | A document without months or categories is rejected and leaves the store unchanged. |
| Settings.BackupRoundTrip | src/components/Settings.jsx:519-535 | A saved state uploaded back and confirmed restores exactly that state. |
| Settings.HandleNewYear | src/components/Settings.jsx:540-548 | Confirmed, the months become the twelve empty seed months and the schedule is emptied; nothing else changes. Declined, nothing changes. |
| SIIData.FilteredStudents | src/components/SIIData.jsx:37-40 | The search keeps exactly the matching students, in roster order. |
| SIIData.Matches | src/components/SIIData.jsx:37-40 | Defines a match: the lower-cased name contains the lower-cased term, or a non-empty full name does. |
| SIIData.EmptyTermShowsAll | src/components/SIIData.jsx:37-40 | An empty search shows the whole roster. |
| SIIData.NoFullNameMatchesOnName | src/components/SIIData.jsx:39 | A student without a full name matches exactly when the lower-cased term occurs in the lower-cased name. |
| SIIData.SearchIgnoresTermCase | src/components/SIIData.jsx:38-39 | Lower-casing the term does not change the result. |
| SIIData.HandleAdd | src/components/SIIData.jsx:22-28 | An empty name changes nothing. Otherwise the student is added active with the fresh id, and the form resets (rate 35000) and closes. |
| SIIData.AddedStudentIsFound | src/components/SIIData.jsx:22-40 | A student just added is found by searching for its own name. |
| SIIData.RowFormFor | src/components/SIIData.jsx:196-201 | The row form copies the four billing fields. |
| SIIData.RowSavePatch | src/components/SIIData.jsx:203-206 | The save sends full name, address, phone and email only. |
| SIIData.RowSaveKeepsIdentity | src/components/SIIData.jsx:203-206 | The row's student gets the four billing fields and keeps id, name, rate, duration and the active flag. |
| SIIData.UneditedRowSaveIsNoOp | src/components/SIIData.jsx:196-206 | Saving a row without editing it leaves the roster unchanged. |
| App.BrandOrDefault | src/App.jsx:27 | The stored brand, or AbsaPiano / Music when there is none. |
| App.IndexOf | src/App.jsx:54 | `indexOf` gives the first position holding the key, or −1 exactly when the key is absent. |
| App.IndexOfOwnPosition | src/App.jsx:54 | In a list without repeats, each key is found at its own position. |
| App.NextKey | src/App.jsx:53-56 | The next key is always a key, and it is the first key when the current one is unknown. |
| App.NextIndexWraps | src/App.jsx:55 | For a position i, or for −1, (i + 1) mod m is i + 1, or 0 after the last position. |
| App.NextKeyMoves | src/App.jsx:53-56 | In a list without repeats, from the key at k a press moves to the key at k + 1, wrapping to 0. |
| App.PressMovesOn | src/App.jsx:53-56 | In a list without repeats, one press moves every key one position on, the last back to the first. |
| App.IterateAdd | src/App.jsx:52-57 | a + b presses are a presses followed by b presses. |
| App.IterateRound | src/App.jsx:52-57 | Under a press that moves each key one position on, n ≤ length presses from position k land on position k + n, wrapping round. |
| App.CycleMoves | src/App.jsx:52-57 | n ≤ length presses from position k land on position k + n, wrapping round. |
| App.FullCycleReturns | src/App.jsx:52-57 | As many presses as there are keys come back to the starting key. |
| App.IconKeysDiffer | src/App.jsx:42-50 | The seven icon keys are distinct. |
| App.NextIcon | src/App.jsx:52-56 | The next icon is a known icon, and 'Music' when the current one is unknown. |
| App.CycleIcon | src/App.jsx:52-57 | The icon press stores the next icon and changes nothing else. |
| App.NextIconMoves | src/App.jsx:42-57 | Icon k cycles to icon k + 1, and Piano back to Music. |
| App.SevenCyclesReturn | src/App.jsx:52-57 | Seven presses from a known icon give it back. |
| App.RenderedIcon | src/App.jsx:59 | A known icon is drawn as itself and any other as Music. |
| App.CycledIconIsDrawn | src/App.jsx:52-59 | After a press the stored icon is the drawn one. An unknown icon is stored as Music, which is what was drawn before. |
| App.HandleBrandNameSave | src/App.jsx:61-64 | Saving stores the typed name, keeps the icon and ends editing. |
| Seqs.Filter | src/context/FinanceContext.jsx:126 | `Array.filter`: exactly the elements satisfying the predicate, as a subsequence. |
| Seqs.FilterMultiplicity | src/context/FinanceContext.jsx:126 | `Array.filter` keeps every copy of a satisfying element and none of any other. |
| Seqs.SortBy | src/components/Schedule.jsx:89 | `Array.sort` (stable insertion sort): a permutation of the input. |
| Seqs.SortSorted | src/components/Schedule.jsx:89 | With a total, transitive comparator the result is sorted. |
| Seqs.FindIndex | src/context/FinanceContext.jsx:61 | `findIndex`: the first position with the key, or −1 exactly when none has it. |
| Seqs.RemoveKey | src/context/FinanceContext.jsx:126 | Filter-by-id: exactly the elements with another id, in order, and as many as there are such elements. |
| Text.TrimStart | src/components/Settings.jsx:317 | Drops a whitespace-only prefix, leaving a suffix that does not start with whitespace. |
| Text.TrimEnd | src/components/Settings.jsx:317 | Drops a whitespace-only suffix, leaving a prefix that does not end with whitespace. |
| Text.Trim | src/components/Settings.jsx:317 | `trim()`: the result neither starts nor ends with whitespace. |
| Text.TrimIsInfix | src/components/Settings.jsx:317 | The trimmed text is a contiguous piece of the input with only whitespace before and after it. |
| Text.TrimIdempotent | src/components/Settings.jsx:318 | Trimming twice is trimming once. |
| Text.TrimEmptyIff | src/components/Settings.jsx:317 | The trimmed text is empty exactly when the input is whitespace only. |
| Text.LowerChar | src/components/SIIData.jsx:38 | An upper-case letter maps to its lower-case code point; everything else is kept. |
| Text.ToLower | src/components/SIIData.jsx:38 | `toLowerCase()` lower-cases each character and keeps the length. |
| Text.ToLowerIdempotent | src/components/SIIData.jsx:38 | Lower-casing twice is lower-casing once. |
| Text.IncludesIff | src/components/SIIData.jsx:38 | `includes` holds exactly when the term occurs at some offset. |
| Text.IncludesEmpty | src/components/SIIData.jsx:38 | Every string includes the empty string. |
| Text.LexLeTotal | src/components/Schedule.jsx:89 | Any two strings are comparable. |
| Text.LexLeTransitive | src/components/Schedule.jsx:89 | The order is transitive. |
| Text.LexLeAntisymmetric | src/components/Schedule.jsx:89 | Strings ordered both ways are equal. |
| Text.FirstDifferenceOrders | src/components/Schedule.jsx:89 | Equal-length strings are ordered by their first differing character. |
| Text.Digit | src/components/Schedule.jsx:23 | The decimal digit character for 0..9. |
| Text.ToDecimal | src/components/Schedule.jsx:23 | `String(n)` is a non-empty string of digits. |
| Text.PadStart | src/components/Schedule.jsx:23 | `padStart` keeps the text at the end and fills the front with the pad character up to the length. |
| Text.PadStartTwoDigits | src/components/Schedule.jsx:23 | `String(n).padStart(2, '0')` for n < 100 is its two digits. |

## Left out

- **Undo/redo.** `src/App.jsx` reads undo, redo, canUndo and canRedo from the context, but the context value never provides them, and there is no history manager, so there is nothing to model.
- **Behaviour the code does not have.** There is no previous-month import, the migration fills no savings or `budgetBand` fields, and a toggle asks for no payment date. None of these appears in the store or the views, so none is modelled.
- **Budget bands by id, not by field.** The chart assigns an expense to a band by the fixed category ids 1-4, and a category's own `budgetBand` field plays no part.
- **`startNewYear` and the schedule.** The comment in `src/context/FinanceContext.jsx:279-285` ends "Let's just reset months", but line 279 also sets `schedule: []`. `Store.StartNewYear` clears the schedule, as the code does.
- **`budgetBand` values.** A `budgetBand` holding any string other than 'basicos' or 'estiloVida' is not representable. The band is `Option<BudgetBand>`.
- **Persistence and files.** The local-storage hook is not part of this model. The stored document is a constructor argument.
  - JSON parsing is a parameter: `Option<Document>`, with `None` for a file that does not parse.
  - The backup download, FileReader, Blob and the `setTimeout` before the new year are I/O, as are `window.confirm` (a boolean parameter) and `alert` (left out).
- **Copy to clipboard.** SIIData `handleCopy` is I/O (the clipboard and a timer) and is not modelled.
- **Nondeterministic ids and dates.** `Date.now()` and `Math.random()` ids, and today's date, are parameters. The fresh-id preconditions stand in for the source's assumption that they are unused. The model does not bound them or check them otherwise.
- **Aliasing.** `addTransaction`, `addPianoClass` and the delete and import operations write into the month objects shared with the previous state. The model gives only the resulting state, not the mutation of React's old value. Two consequences of those writes are not modelled:
  - `Store.StartNewYear`: with nothing stored, the state starts as the `initialData` object itself. The writes in `src/context/FinanceContext.jsx:45-47`, 55, 63, 73 and 80 then go into `initialData.months[i]`, and `startNewYear` copies those filled months back instead of twelve empty ones. The model assumes the seed months stay empty.
  - `BudgetChart.ComputeBudget`: the chart's `useMemo` depends on `[monthData, categories]`. After an in-place push the month object is the same one, so the memo can keep showing figures from before the change. The model recomputes from the current month.
- **Effect scheduling.** The migration effect runs after a render in the source. The model applies it at construction and in `FinanceContext.FinanceStore.LoadData`.
- **LoadData.** `FinanceContext.FinanceStore.LoadData` and the constructor require a document with months. The source would crash on later reads without them, and the only caller, the backup import, checks for months first.
- **Number coercion and floats.** Amounts are integers. `Number(...)` coercion of form strings, string concatenation by `+` on unconverted values, and prototype keys of the breakdown object are not modelled.
  - The 1 and 1.15 thresholds are exact integer comparisons, which agree with exact real division (`BudgetChart.LevelMatchesRatio`), not with floating point.
- **Loose id matching.** The student menu and `categories.find` use JavaScript `==`. The Schedule `editingId` and `studentId` tests are truthiness tests, so an id of 0 counts as "none". The model uses `Option<Id>`, so `Schedule.HandleAdd` and `Schedule.ResolveName` treat a present id 0 as present.
- **Absent fields.** Absent lists (`|| []`) are empty sequences and absent strings are "", because every reader tests them by truthiness.
- **Text.** `Text.ToLower` lower-cases ASCII and Latin-1 letters only. `Text.LexLe` compares by code points, which is what `localeCompare` gives on "HH:MM" strings but not on general text.
- **Form validation.** The HTML `required` attribute is modelled as a non-empty guard in `Settings.SubmitMethod` and `Settings.SubmitCategory`. Number inputs are integers, and an empty amount or category is `None`.
- **Rendering.** JSX, class names, animations, charts, `toLocaleString`, `toFixed` percentages and progress-bar widths are not modelled.
- **StudentDatabase.jsx.** src/components/StudentDatabase.jsx is not part of this model. It forwards to the roster operations already modelled.
- **Sorting.** `Seqs.SortBy` is an insertion sort. The contracts about it state only sortedness and permutation, so they do not fix the order of equal elements: ties among breakdown amounts or among equal times are left unspecified (JavaScript's stable sort keeps them in input order).

## Findings

| source | as written | input that shows it | evidently intended | confidence | as-written member | corrected member |
|---|---|---|---|---|---|---|
| src/components/Settings.jsx:46 | The ternary renders the category manager whenever the tab is not 'paymentMethods'. Then the data panel at line 79 is added on the 'data' tab. | The tab 'data': both the category manager and the data panel are on screen. | Each tab shows only its own panel, as the three tab buttons suggest. | likely; not executed | Settings.PanelsAsWritten, Settings.DataTabAlsoShowsCategories | Settings.Panels, Settings.PanelsAgreeOffDataTab |
| src/components/PianoClassesTable.jsx:195-201 | A row builds its edit form from the class once, when it mounts, and never re-reads it. The row is keyed by the class id, so a toggle does not remount it. | Mark an unpaid class without a date 'Al día', then open the row's editor and save it: the saved payment date is '', and the date the toggle set is lost. | The editor starts from the class as it is shown, so a save keeps the toggle's status and date. | likely; not executed | PianoClassesTable.ToggleRowAsWritten, PianoClassesTable.StaleFormWipesPaymentDate | PianoClassesTable.ToggleRow, PianoClassesTable.FreshFormKeepsToggle |
