/**
 * The 50/30/20 budget view of one month: the income it is measured against,
 * the split of the expenses into basic and lifestyle spending, the savings,
 * the per-category breakdown of the expenses and the traffic-light status of
 * each band.
 */
module BudgetChart {
  import opened Wrappers
  import opened Model
  import Seqs

  // ---------------------------------------------------------------- bands

  /** The expense categories counted as basic spending (home, transport, family/food, health). */
  const BasicCategoryIds: seq<Id> := [1, 2, 3, 4]

  /** The share of an expense that counts toward the basic band. */
  function BasicShare(t: Transaction): Amount {
    if t.categoryId in BasicCategoryIds then t.amount else 0
  }

  /** The share of an expense that counts toward the lifestyle band: every category that is not basic. */
  function LifestyleShare(t: Transaction): Amount {
    if t.categoryId in BasicCategoryIds then 0 else t.amount
  }

  /** The two bands split the month's expenses: basic + lifestyle is the month's expense total. */
  lemma BandsPartitionExpense(m: Month)
    ensures Seqs.SumBy(m.expenses, BasicShare) + Seqs.SumBy(m.expenses, LifestyleShare) == MonthExpense(m)
  {
    Seqs.SumByLinear(m.expenses, BasicShare, LifestyleShare, TxAmount);
  }

  /** `(monthData.savings || []).reduce(...)`: a month without a savings list has saved nothing. */
  function SavingsTotal(m: Month): (r: Amount)
    ensures m.savings.None? ==> r == 0
    ensures m.savings.Some? ==> r == Seqs.SumBy(m.savings.value, SavingAmount)
  {
    Seqs.SumBy(m.savings.GetOr([]), SavingAmount)
  }

  // ---------------------------------------------------------------- per-category breakdown

  /** One value of the `categoryBreakdown` object; `key` is the property it is stored under. */
  datatype BreakdownEntry = BreakdownEntry(key: Id, name: string, amount: Amount, color: string)

  function EntryKey(e: BreakdownEntry): Id { e.key }
  function EntryAmount(e: BreakdownEntry): Amount { e.amount }
  function ExpenseCategory(t: Transaction): Id { t.categoryId }

  /** The share of an expense that belongs to category `id`. */
  function AmountIn(id: Id): Transaction -> Amount {
    (t: Transaction) => if t.categoryId == id then t.amount else 0
  }

  /** `categories.find(c => c.id === catId)`: the first category with that id. */
  function FindCategory(cats: seq<Category>, id: Id): (r: Option<Category>)
    ensures r.Some? ==> r.value in cats && r.value.id == id
    ensures r.None? <==> Seqs.FreshIn(id, cats, CategoryId)
  {
    var k := Seqs.FindIndex(cats, CategoryId, id);
    if k < 0 then None else Some(cats[k])
  }

  /** The label of a category: its name, or 'Otros' for a missing category or an empty name. */
  function LabelName(c: Option<Category>): string {
    if c.Some? && c.value.name != "" then c.value.name else "Otros"
  }

  /** The colour of a category: its colour, or 'bg-slate-500' for a missing category or an empty colour. */
  function LabelColor(c: Option<Category>): string {
    if c.Some? && c.value.color != "" then c.value.color else "bg-slate-500"
  }

  /** The entry created the first time an expense of a category is seen. */
  function NewEntry(id: Id, cats: seq<Category>): BreakdownEntry {
    BreakdownEntry(id, LabelName(FindCategory(cats, id)), 0, LabelColor(FindCategory(cats, id)))
  }

  /** One step of the expense loop: create the entry of the expense's category if missing, then add the amount. */
  function AddExpense(entries: seq<BreakdownEntry>, t: Transaction, cats: seq<Category>): seq<BreakdownEntry> {
    var k := Seqs.FindIndex(entries, EntryKey, t.categoryId);
    var es := if k >= 0 then entries else entries + [NewEntry(t.categoryId, cats)];
    var j := if k >= 0 then k else |entries|;
    es[j := es[j].(amount := es[j].amount + t.amount)]
  }

  /** The step either grows the existing entry of the expense's category, or appends a new one holding the amount. */
  lemma AddExpenseShape(entries: seq<BreakdownEntry>, t: Transaction, cats: seq<Category>)
    ensures var r := AddExpense(entries, t, cats);
      var k := Seqs.FindIndex(entries, EntryKey, t.categoryId);
      if k >= 0 then
        |r| == |entries| && r[k] == entries[k].(amount := entries[k].amount + t.amount)
        && forall i :: 0 <= i < |r| && i != k ==> r[i] == entries[i]
      else
        |r| == |entries| + 1 && r[|entries|] == NewEntry(t.categoryId, cats).(amount := t.amount)
        && forall i :: 0 <= i < |entries| ==> r[i] == entries[i]
  {
  }

  /** The `categoryBreakdown` object after the expenses `ts`, its entries in creation order. */
  function Accumulate(ts: seq<Transaction>, cats: seq<Category>): seq<BreakdownEntry>
    decreases |ts|
  {
    if ts == [] then [] else AddExpense(Accumulate(ts[..|ts| - 1], cats), ts[|ts| - 1], cats)
  }

  /** The step keeps the entries distinct, and the categories with entries gain exactly the expense's one. */
  lemma AddExpenseKeys(r0: seq<BreakdownEntry>, t: Transaction, cats: seq<Category>)
    requires Seqs.DistinctKeys(r0, EntryKey)
    ensures Seqs.DistinctKeys(AddExpense(r0, t, cats), EntryKey)
    ensures forall id :: Seqs.FreshIn(id, AddExpense(r0, t, cats), EntryKey) <==>
      Seqs.FreshIn(id, r0, EntryKey) && t.categoryId != id
  {
    var r := AddExpense(r0, t, cats);
    AddExpenseShape(r0, t, cats);
    var k := Seqs.FindIndex(r0, EntryKey, t.categoryId);
    if k >= 0 {
      Seqs.FreshInSameKeys(r, r0, EntryKey);
      assert r0[k] in r0;
    } else {
      assert r == r0 + [r[|r0|]];
      forall id ensures Seqs.FreshIn(id, r, EntryKey) <==> Seqs.FreshIn(id, r0, EntryKey) && t.categoryId != id {
        Seqs.FreshInAppend(id, r0, r[|r0|], EntryKey);
      }
      forall i, j | 0 <= i < j < |r| ensures r[i].key != r[j].key {
        if j == |r0| {
          assert r0[i] in r0;
        }
      }
    }
  }

  /** One entry per category that occurs among the expenses, and no two entries for the same category. */
  lemma {:induction false} AccumulateKeys(ts: seq<Transaction>, cats: seq<Category>)
    ensures Seqs.DistinctKeys(Accumulate(ts, cats), EntryKey)
    ensures forall id :: Seqs.FreshIn(id, Accumulate(ts, cats), EntryKey) <==> Seqs.FreshIn(id, ts, ExpenseCategory)
    decreases |ts|
  {
    if ts != [] {
      var ts', t := ts[..|ts| - 1], ts[|ts| - 1];
      AccumulateKeys(ts', cats);
      AddExpenseKeys(Accumulate(ts', cats), t, cats);
      assert ts == ts' + [t];
      forall id ensures Seqs.FreshIn(id, ts, ExpenseCategory) <==> Seqs.FreshIn(id, ts', ExpenseCategory) && t.categoryId != id {
        Seqs.FreshInAppend(id, ts', t, ExpenseCategory);
      }
    }
  }

  /** Each entry is labelled with the name and colour of its category, with the 'Otros' fallback. */
  lemma {:induction false} AccumulateLabels(ts: seq<Transaction>, cats: seq<Category>)
    ensures forall e :: e in Accumulate(ts, cats) ==>
      e.name == LabelName(FindCategory(cats, e.key)) && e.color == LabelColor(FindCategory(cats, e.key))
    decreases |ts|
  {
    if ts != [] {
      var ts', t := ts[..|ts| - 1], ts[|ts| - 1];
      AccumulateLabels(ts', cats);
      var r0 := Accumulate(ts', cats);
      var r := Accumulate(ts, cats);
      AddExpenseShape(r0, t, cats);
      var k := Seqs.FindIndex(r0, EntryKey, t.categoryId);
      forall e | e in r
        ensures e.name == LabelName(FindCategory(cats, e.key)) && e.color == LabelColor(FindCategory(cats, e.key))
      {
        var i :| 0 <= i < |r| && r[i] == e;
        if i < |r0| {
          assert r0[i] in r0;
        }
      }
    }
  }

  /** Every entry holds the sum of the expenses of its category among `ts`. */
  ghost predicate AmountsAreSums(entries: seq<BreakdownEntry>, ts: seq<Transaction>) {
    forall i :: 0 <= i < |entries| ==> entries[i].amount == Seqs.SumBy(ts, AmountIn(entries[i].key))
  }

  /** One step of the loop keeps every entry's amount equal to the sum of its category's expenses. */
  lemma AddExpenseAmounts(r0: seq<BreakdownEntry>, ts: seq<Transaction>, t: Transaction, cats: seq<Category>)
    requires AmountsAreSums(r0, ts)
    requires Seqs.DistinctKeys(r0, EntryKey)
    requires forall id :: Seqs.FreshIn(id, r0, EntryKey) ==> Seqs.FreshIn(id, ts, ExpenseCategory)
    ensures AmountsAreSums(AddExpense(r0, t, cats), ts + [t])
  {
    var r := AddExpense(r0, t, cats);
    AddExpenseShape(r0, t, cats);
    var k := Seqs.FindIndex(r0, EntryKey, t.categoryId);
    forall i | 0 <= i < |r| ensures r[i].amount == Seqs.SumBy(ts + [t], AmountIn(r[i].key)) {
      var f := AmountIn(r[i].key);
      Seqs.SumByConcat(ts, [t], f);
      Seqs.SumBySingle(t, f);
      if i == k {
        assert r[i].key == t.categoryId && f(t) == t.amount;
      } else if i < |r0| {
        assert r[i] == r0[i];
        if k >= 0 {
          assert r0[i].key != r0[k].key;
        } else {
          assert r0[i] in r0;
        }
        assert f(t) == 0;
      } else {
        assert k < 0 && r[i].key == t.categoryId && f(t) == t.amount;
        assert Seqs.FreshIn(t.categoryId, ts, ExpenseCategory);
        forall j | 0 <= j < |ts| ensures f(ts[j]) == 0 {
          assert ts[j] in ts;
        }
        Seqs.SumByZero(ts, f);
      }
    }
  }

  /** Each entry's amount is the sum of the expenses of its category. */
  lemma {:induction false} AccumulateAmounts(ts: seq<Transaction>, cats: seq<Category>)
    ensures AmountsAreSums(Accumulate(ts, cats), ts)
    decreases |ts|
  {
    if ts != [] {
      var ts', t := ts[..|ts| - 1], ts[|ts| - 1];
      AccumulateAmounts(ts', cats);
      AccumulateKeys(ts', cats);
      assert ts == ts' + [t];
      AddExpenseAmounts(Accumulate(ts', cats), ts', t, cats);
    }
  }

  /** One step of the loop adds exactly the expense's amount to the entries' total. */
  lemma AddExpenseTotal(r0: seq<BreakdownEntry>, t: Transaction, cats: seq<Category>)
    ensures Seqs.SumBy(AddExpense(r0, t, cats), EntryAmount) == Seqs.SumBy(r0, EntryAmount) + t.amount
  {
    var r := AddExpense(r0, t, cats);
    var k := Seqs.FindIndex(r0, EntryKey, t.categoryId);
    if k >= 0 {
      Seqs.SumByUpdate(r0, k, r[k], EntryAmount);
    } else {
      var n := NewEntry(t.categoryId, cats);
      var es := r0 + [n];
      Seqs.SumByConcat(r0, [n], EntryAmount);
      Seqs.SumBySingle(n, EntryAmount);
      Seqs.SumByUpdate(es, |r0|, r[|r0|], EntryAmount);
    }
  }

  /** The entries' amounts add up to the month's expense total. */
  lemma {:induction false} AccumulateTotal(ts: seq<Transaction>, cats: seq<Category>)
    ensures Seqs.SumBy(Accumulate(ts, cats), EntryAmount) == Seqs.SumBy(ts, TxAmount)
    decreases |ts|
  {
    if ts != [] {
      var ts', t := ts[..|ts| - 1], ts[|ts| - 1];
      AccumulateTotal(ts', cats);
      AddExpenseTotal(Accumulate(ts', cats), t, cats);
    }
  }

  // ---------------------------------------------------------------- Object.values order and the sort

  /** A key JavaScript treats as an array index: an integer from 0 to 2^32 - 2. */
  predicate IsArrayIndex(k: int) {
    0 <= k <= 4294967294
  }

  function IndexKeyed(e: BreakdownEntry): bool { IsArrayIndex(e.key) }
  function NamedKeyed(e: BreakdownEntry): bool { !IsArrayIndex(e.key) }
  function KeyLe(a: BreakdownEntry, b: BreakdownEntry): bool { a.key <= b.key }

  /** `Object.values`: the array-index keys in ascending order, then the other keys in creation order. */
  function ObjectValues(entries: seq<BreakdownEntry>): (r: seq<BreakdownEntry>)
    ensures multiset(r) == multiset(entries)
  {
    Seqs.FilterSplit(entries, IndexKeyed, NamedKeyed);
    Seqs.SortBy(Seqs.Filter(entries, IndexKeyed), KeyLe) + Seqs.Filter(entries, NamedKeyed)
  }

  /** The order `Object.values` produces: every index key, ascending, before every other key, which keep creation order. */
  lemma ObjectValuesOrder(entries: seq<BreakdownEntry>)
    ensures var r := ObjectValues(entries);
      var n := Seqs.Count(entries, IndexKeyed);
      n <= |r| && Seqs.SortedBy(r[..n], KeyLe)
      && (forall i :: 0 <= i < n ==> IsArrayIndex(r[i].key))
      && (forall i :: n <= i < |r| ==> !IsArrayIndex(r[i].key))
      && Seqs.IsSubsequence(r[n..], entries)
  {
    var a := Seqs.Filter(entries, IndexKeyed);
    var sa := Seqs.SortBy(a, KeyLe);
    var b := Seqs.Filter(entries, NamedKeyed);
    var r := ObjectValues(entries);
    assert r == sa + b;
    Seqs.FilterCount(entries, IndexKeyed);
    assert r[..|a|] == sa && r[|a|..] == b;
    assert Seqs.SortedBy(sa, KeyLe) by {
      Seqs.SortSorted(a, KeyLe);
    }
    assert forall i :: 0 <= i < |sa| ==> IsArrayIndex(sa[i].key) by {
      forall i | 0 <= i < |sa| ensures IsArrayIndex(sa[i].key) {
        var x := sa[i];
        assert x in multiset(sa) && x in multiset(a);
        assert x in a;
      }
    }
    assert forall i :: 0 <= i < |b| ==> !IsArrayIndex(b[i].key) by {
      forall i | 0 <= i < |b| ensures !IsArrayIndex(b[i].key) {
        assert b[i] in b;
      }
    }
  }

  /** The sort comparator `b.amount - a.amount`: larger amounts first. */
  function AmountGe(a: BreakdownEntry, b: BreakdownEntry): bool { a.amount >= b.amount }

  /** `Object.values(categoryBreakdown).sort(...)`: the month's breakdown, largest first. */
  function Breakdown(m: Month, cats: seq<Category>): seq<BreakdownEntry> {
    Seqs.SortBy(ObjectValues(Accumulate(m.expenses, cats)), AmountGe)
  }

  /**
   * The breakdown is sorted by descending amount, has exactly one entry per
   * category that occurs among the expenses, each entry holds that category's
   * sum and label, and together the entries hold the month's expense total.
   */
  lemma BreakdownFacts(m: Month, cats: seq<Category>)
    ensures var r := Breakdown(m, cats);
      Seqs.SortedBy(r, AmountGe)
      && Seqs.DistinctKeys(r, EntryKey)
      && (forall id :: Seqs.FreshIn(id, r, EntryKey) <==> Seqs.FreshIn(id, m.expenses, ExpenseCategory))
      && (forall e :: e in r ==> e.amount == Seqs.SumBy(m.expenses, AmountIn(e.key)))
      && (forall e :: e in r ==>
            e.name == LabelName(FindCategory(cats, e.key)) && e.color == LabelColor(FindCategory(cats, e.key)))
      && Seqs.SumBy(r, EntryAmount) == MonthExpense(m)
  {
    var acc := Accumulate(m.expenses, cats);
    var r := Breakdown(m, cats);
    AccumulateKeys(m.expenses, cats);
    AccumulateLabels(m.expenses, cats);
    AccumulateAmounts(m.expenses, cats);
    AccumulateTotal(m.expenses, cats);
    BreakdownSortedDistinct(m, cats);
    BreakdownSameEntries(m, cats);
    forall e | e in r ensures e.amount == Seqs.SumBy(m.expenses, AmountIn(e.key)) {
      var i :| 0 <= i < |acc| && acc[i] == e;
    }
    Seqs.SumByPermutation(r, acc, EntryAmount);
  }

  /** The breakdown is sorted by descending amount and keeps the entries distinct. */
  lemma BreakdownSortedDistinct(m: Month, cats: seq<Category>)
    ensures Seqs.SortedBy(Breakdown(m, cats), AmountGe)
    ensures Seqs.DistinctKeys(Breakdown(m, cats), EntryKey)
  {
    var acc := Accumulate(m.expenses, cats);
    var ov := ObjectValues(acc);
    AccumulateKeys(m.expenses, cats);
    Seqs.SortSorted(ov, AmountGe);
    ObjectValuesDistinct(acc);
    Seqs.SortDistinct(ov, AmountGe, EntryKey);
  }

  /** The breakdown holds the accumulated entries, each as often, in another order. */
  lemma BreakdownSameEntries(m: Month, cats: seq<Category>)
    ensures multiset(Breakdown(m, cats)) == multiset(Accumulate(m.expenses, cats))
    ensures forall e :: e in Breakdown(m, cats) <==> e in Accumulate(m.expenses, cats)
  {
    var acc := Accumulate(m.expenses, cats);
    var r := Breakdown(m, cats);
    forall e ensures e in r <==> e in acc {
      assert e in r <==> e in multiset(r);
      assert e in acc <==> e in multiset(acc);
    }
  }

  /** Reordering the entries by key class keeps them distinct. */
  lemma ObjectValuesDistinct(entries: seq<BreakdownEntry>)
    requires Seqs.DistinctKeys(entries, EntryKey)
    ensures Seqs.DistinctKeys(ObjectValues(entries), EntryKey)
  {
    var a := Seqs.Filter(entries, IndexKeyed);
    var sa := Seqs.SortBy(a, KeyLe);
    var b := Seqs.Filter(entries, NamedKeyed);
    var r := ObjectValues(entries);
    Seqs.FilterDistinct(entries, IndexKeyed, EntryKey);
    Seqs.FilterDistinct(entries, NamedKeyed, EntryKey);
    Seqs.SortDistinct(a, KeyLe, EntryKey);
    forall i, j | 0 <= i < j < |r| ensures r[i].key != r[j].key {
      if i < |sa| && |sa| <= j {
        var x := sa[i];
        assert r[i] == x && x in multiset(sa) && x in multiset(a);
        assert x in a;
        assert r[j] == b[j - |sa|] && b[j - |sa|] in b;
      } else if i < |sa| {
        assert r[i] == sa[i] && r[j] == sa[j];
      } else {
        assert r[i] == b[i - |sa|] && r[j] == b[j - |sa|];
      }
    }
  }

  // ---------------------------------------------------------------- the budget

  /** Extending the processed prefix by one expense is one loop step. */
  lemma ExpensePrefixStep(ts: seq<Transaction>, k: nat, cats: seq<Category>)
    requires k < |ts|
    ensures Accumulate(ts[..k + 1], cats) == AddExpense(Accumulate(ts[..k], cats), ts[k], cats)
    ensures Seqs.SumBy(ts[..k + 1], BasicShare) == Seqs.SumBy(ts[..k], BasicShare) + BasicShare(ts[k])
    ensures Seqs.SumBy(ts[..k + 1], LifestyleShare) == Seqs.SumBy(ts[..k], LifestyleShare) + LifestyleShare(ts[k])
  {
    assert ts[..k + 1][..k] == ts[..k];
  }

  /** What the chart computes for one month. */
  datatype Budget = Budget(
    totalIncome: Amount, totalExpenses: Amount, basicosReal: Amount, estiloVidaReal: Amount,
    ahorroReal: Amount, breakdown: seq<BreakdownEntry>)

  /** The body of the expense loop on `categoryBreakdown`: create the category's entry if it is missing, then add the amount. */
  method AddToBreakdown(entries: seq<BreakdownEntry>, t: Transaction, cats: seq<Category>) returns (r: seq<BreakdownEntry>)
    ensures r == AddExpense(entries, t, cats)
  {
    r := entries;
    var j := Seqs.FindIndex(r, EntryKey, t.categoryId);
    if j < 0 {
      var cat := FindCategory(cats, t.categoryId);
      r := r + [BreakdownEntry(t.categoryId, LabelName(cat), 0, LabelColor(cat))];
      j := |r| - 1;
    }
    r := r[j := r[j].(amount := r[j].amount + t.amount)];
  }

  /** The `forEach` over the expenses: both band sums and the breakdown object, built in one pass. */
  method ScanExpenses(ts: seq<Transaction>, cats: seq<Category>)
    returns (basicos: Amount, estiloVida: Amount, entries: seq<BreakdownEntry>)
    ensures basicos == Seqs.SumBy(ts, BasicShare)
    ensures estiloVida == Seqs.SumBy(ts, LifestyleShare)
    ensures entries == Accumulate(ts, cats)
  {
    basicos, estiloVida := 0, 0;
    entries := [];
    var k := 0;
    while k < |ts|
      invariant 0 <= k <= |ts|
      invariant basicos == Seqs.SumBy(ts[..k], BasicShare)
      invariant estiloVida == Seqs.SumBy(ts[..k], LifestyleShare)
      invariant entries == Accumulate(ts[..k], cats)
    {
      var t := ts[k];
      ExpensePrefixStep(ts, k, cats);
      entries := AddToBreakdown(entries, t, cats);
      if t.categoryId in BasicCategoryIds {
        basicos := basicos + t.amount;
      } else {
        estiloVida := estiloVida + t.amount;
      }
      k := k + 1;
    }
    assert ts[..k] == ts;
  }

  /** `budgetData`: the income sums, then one pass over the expenses that fills both bands and the breakdown. */
  method ComputeBudget(m: Month, cats: seq<Category>) returns (b: Budget)
    ensures b.totalIncome == MonthIncome(m)
    ensures b.basicosReal == Seqs.SumBy(m.expenses, BasicShare)
    ensures b.estiloVidaReal == Seqs.SumBy(m.expenses, LifestyleShare)
    ensures b.totalExpenses == MonthExpense(m)
    ensures b.ahorroReal == SavingsTotal(m)
    ensures b.breakdown == Breakdown(m, cats)
  {
    var pianoIncome := Seqs.SumBy(m.pianoClasses, ClassTotal);
    var otherIncome := Seqs.SumBy(m.incomes, TxAmount);
    var basicos, estiloVida, entries := ScanExpenses(m.expenses, cats);
    BandsPartitionExpense(m);
    var ahorro := Seqs.SumBy(m.savings.GetOr([]), SavingAmount);
    b := Budget(pianoIncome + otherIncome, basicos + estiloVida, basicos, estiloVida, ahorro,
                Seqs.SortBy(ObjectValues(entries), AmountGe));
  }

  // ---------------------------------------------------------------- status of a band

  /** How a band's spent spending compares with its ideal `income * pct / 100`. */
  datatype Level = NoIdeal | WithinIdeal | SlightlyOver | Over

  /**
   * `spent / ideal` compared with 1 and 1.15, written with integers: with
   * `ideal100 = income * pct` (one hundred times the ideal), `spent / ideal <= q`
   * is `100 * spent <= q * ideal100` for a positive ideal and the reverse for a
   * negative one.
   */
  function LevelOf(spent: Amount, income: Amount, pct: nat): Level {
    var ideal100 := income * pct;
    if ideal100 == 0 then NoIdeal
    else if (if ideal100 > 0 then 100 * spent <= ideal100 else 100 * spent >= ideal100) then WithinIdeal
    else if (if ideal100 > 0 then 10000 * spent <= 115 * ideal100 else 10000 * spent >= 115 * ideal100) then SlightlyOver
    else Over
  }

  /** Dividing by a non-zero number and comparing is multiplying back, with the sign of the divisor. */
  lemma DivLeIff(x: real, y: real, q: real)
    requires y != 0.0
    ensures x / y <= q <==> (if y > 0.0 then x <= q * y else x >= q * y)
  {
    var d := x / y;
    assert d * y == x;
    if y > 0.0 {
      if d <= q { assert d * y <= q * y; }
      if x <= q * y { assert d * y <= q * y; }
    } else {
      if d <= q { assert d * y >= q * y; }
      if x >= q * y { assert d * y >= q * y; }
    }
  }

  /** The integer comparison agrees with the exact ratio `spent / ideal` against the thresholds 1 and 1.15. */
  lemma LevelMatchesRatio(spent: Amount, income: Amount, pct: nat)
    ensures var ideal := (income * pct) as real / 100.0;
      (LevelOf(spent, income, pct) == NoIdeal <==> ideal == 0.0)
      && (ideal != 0.0 ==>
            (LevelOf(spent, income, pct) == WithinIdeal <==> spent as real / ideal <= 1.0)
            && (LevelOf(spent, income, pct) == SlightlyOver <==> 1.0 < spent as real / ideal <= 1.15)
            && (LevelOf(spent, income, pct) == Over <==> 1.15 < spent as real / ideal))
  {
    var ideal := (income * pct) as real / 100.0;
    var i100 := income * pct;
    assert ideal * 100.0 == i100 as real;
    if ideal != 0.0 {
      DivLeIff(spent as real, ideal, 1.0);
      DivLeIff(spent as real, ideal, 1.15);
      assert (i100 > 0) == (ideal > 0.0);
      assert (spent as real <= ideal) == (100 * spent <= i100);
      assert (spent as real >= ideal) == (100 * spent >= i100);
      assert (spent as real <= 1.15 * ideal) == (10000 * spent <= 115 * i100);
      assert (spent as real >= 1.15 * ideal) == (10000 * spent >= 115 * i100);
    }
  }

  datatype Icon = InfoIcon | CheckIcon | AlertIcon

  /** `getStatusIcon`: the icon and text colour of a band. */
  function StatusIcon(l: Level): (Icon, string) {
    match l
    case NoIdeal => (InfoIcon, "text-slate-400")
    case WithinIdeal => (CheckIcon, "text-emerald-400")
    case SlightlyOver => (AlertIcon, "text-amber-400")
    case Over => (AlertIcon, "text-rose-400")
  }

  /** `getBarColor`: the progress-bar colour of a band. */
  function BarColor(l: Level): string {
    match l
    case NoIdeal => "bg-slate-500"
    case WithinIdeal => "bg-emerald-500"
    case SlightlyOver => "bg-amber-500"
    case Over => "bg-rose-500"
  }

  /** The bands of the chart and their target percentages. */
  const BasicTarget: nat := 50
  const LifestyleTarget: nat := 30
  const SavingTarget: nat := 20

  /** The level of each band of a budget, against its share of the month's income. */
  function BandLevels(b: Budget): (Level, Level, Level) {
    (LevelOf(b.basicosReal, b.totalIncome, BasicTarget),
     LevelOf(b.estiloVidaReal, b.totalIncome, LifestyleTarget),
     LevelOf(b.ahorroReal, b.totalIncome, SavingTarget))
  }

  /**
   * What a band shows: slate while the income is zero, green while the band
   * stays within its ideal, amber up to 15% over, rose beyond.
   */
  lemma BandIndicators(spent: Amount, income: Amount, pct: nat)
    requires pct > 0
    ensures var l := LevelOf(spent, income, pct);
      var ideal := (income * pct) as real / 100.0;
      (income == 0 ==> BarColor(l) == "bg-slate-500" && StatusIcon(l) == (InfoIcon, "text-slate-400"))
      && (income != 0 ==>
            (BarColor(l) == "bg-emerald-500" <==> spent as real / ideal <= 1.0)
            && (BarColor(l) == "bg-rose-500" <==> 1.15 < spent as real / ideal)
            && (StatusIcon(l).0 == AlertIcon <==> 1.0 < spent as real / ideal))
  {
    LevelMatchesRatio(spent, income, pct);
    assert income != 0 ==> income * pct != 0;
  }

  // ---------------------------------------------------------------- chart colours

  /** The Tailwind background classes the chart knows how to colour. */
  const TailwindPalette: map<string, string> := map[
    "bg-blue-500" := "#3b82f6", "bg-green-500" := "#22c55e", "bg-yellow-500" := "#eab308",
    "bg-red-500" := "#ef4444", "bg-purple-500" := "#a855f7", "bg-pink-500" := "#ec4899",
    "bg-indigo-500" := "#6366f1", "bg-teal-500" := "#14b8a6", "bg-emerald-500" := "#10b981",
    "bg-orange-500" := "#f97316", "bg-cyan-500" := "#06b6d4", "bg-lime-500" := "#84cc16",
    "bg-rose-500" := "#f43f5e", "bg-violet-500" := "#8b5cf6", "bg-fuchsia-500" := "#d946ef",
    "bg-amber-500" := "#f59e0b", "bg-slate-500" := "#64748b", "bg-slate-400" := "#94a3b8"]

  /** `tailwindToHex`: a seven-character hex colour for every class, slate for an unknown one. */
  function TailwindToHex(cls: string): (hex: string)
    ensures |hex| == 7 && hex[0] == '#'
    ensures cls !in TailwindPalette ==> hex == "#64748b"
    ensures cls in TailwindPalette ==> hex == TailwindPalette[cls]
  {
    if cls in TailwindPalette then TailwindPalette[cls] else "#64748b"
  }

  // ---------------------------------------------------------------- band donut

  /** The band donut: the bands clamped at zero, or a 50/30/20 placeholder when all are empty and there is no income. */
  function DonutValues(b: Budget): (r: seq<Amount>)
    ensures |r| == 3 && forall i :: 0 <= i < 3 ==> r[i] >= 0
    ensures b.basicosReal > 0 ==> r[0] == b.basicosReal
    ensures b.estiloVidaReal > 0 ==> r[1] == b.estiloVidaReal
    ensures b.ahorroReal > 0 ==> r[2] == b.ahorroReal
    ensures b.totalIncome == 0 && b.basicosReal <= 0 && b.estiloVidaReal <= 0 && b.ahorroReal <= 0 ==>
      r == [50, 30, 20]
    ensures !(b.totalIncome == 0 && b.basicosReal <= 0 && b.estiloVidaReal <= 0 && b.ahorroReal <= 0) ==>
      r == [Max0(b.basicosReal), Max0(b.estiloVidaReal), Max0(b.ahorroReal)]
  {
    var v := [Max0(b.basicosReal), Max0(b.estiloVidaReal), Max0(b.ahorroReal)];
    if v[0] <= 0 && v[1] <= 0 && v[2] <= 0 && b.totalIncome == 0 then [50, 30, 20] else v
  }

  /** `Math.max(x, 0)`. */
  function Max0(x: int): (r: int)
    ensures r >= 0 && r >= x && (r == x || r == 0)
  {
    if x > 0 then x else 0
  }
}
