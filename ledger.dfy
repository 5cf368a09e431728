/** Tax-deductible arithmetic and the quarter summary (src/utils/helpers.js:121-189). */
module Ledger {
  import opened Dates
  import opened Records
  import opened Categories
  import opened Seqs
  import opened TaxCalendar

  function Abs(x: real): (r: real)
    ensures r >= 0.0 && (r == x || r == -x)
  {
    if x < 0.0 then -x else x
  }

  /** What `calculateTaxDeductibleAmount` returns: income is passed through signed; an expense is its
      absolute amount less the private-use share (when the percentage is positive), or 0 when it is
      disallowable. */
  function TaxDeductible(t: Transaction): (r: real)
    ensures t.kind == "income" ==> r == t.amount
    ensures t.kind != "income" && t.isDisallowable ==> r == 0.0
    ensures t.kind != "income" ==> r <= Abs(t.amount)
    ensures t.kind != "income" && t.privateUsePercentage <= 100 ==> r >= 0.0
    ensures t.kind != "income" && !t.isDisallowable && t.privateUsePercentage > 0 ==>
      r == Abs(t.amount) * (100 - t.privateUsePercentage) as real / 100.0
  {
    if t.kind == "income" then t.amount
    else if t.isDisallowable then 0.0
    else if t.privateUsePercentage > 0 then
      Abs(t.amount) - Abs(t.amount) * t.privateUsePercentage as real / 100.0
    else Abs(t.amount)
  }

  /** `calculateTaxDeductibleAmount`: reduces a running amount by the private share, then zeroes it
      for a disallowable expense. */
  method CalculateTaxDeductibleAmount(transaction: Transaction) returns (deductibleAmount: real)
    ensures deductibleAmount == TaxDeductible(transaction)
  {
    if transaction.kind == "income" {
      return transaction.amount;
    }
    deductibleAmount := Abs(transaction.amount);
    if transaction.privateUsePercentage > 0 {
      var privateAmount := deductibleAmount * transaction.privateUsePercentage as real / 100.0;
      deductibleAmount := deductibleAmount - privateAmount;
    }
    if transaction.isDisallowable {
      deductibleAmount := 0.0;
    }
  }

  /** An expense is deductible in full exactly when it is neither disallowable nor partly private
      (for a non-zero amount and a percentage of at most 100). */
  lemma DeductibleInFull(t: Transaction)
    requires t.kind != "income" && t.amount != 0.0 && t.privateUsePercentage <= 100
    ensures TaxDeductible(t) == Abs(t.amount) <==> !t.isDisallowable && t.privateUsePercentage <= 0
  {
  }

  /** Transactions dated inside `q` (start and end inclusive). */
  predicate InQuarter(q: Quarter, t: Transaction) {
    Within(t.date, q.start, q.end)
  }

  /** `filterTransactionsByQuarter`: the in-window transactions, in their original order. */
  function FilterByQuarter(ts: seq<Transaction>, q: Quarter): (r: seq<Transaction>)
    ensures forall i :: 0 <= i < |r| ==> r[i] in ts && Within(r[i].date, q.start, q.end)
    ensures forall i :: 0 <= i < |ts| && Within(ts[i].date, q.start, q.end) ==> ts[i] in r
    ensures IsSubsequence(r, ts)
    ensures CountsFiltered(r, ts, t => InQuarter(q, t))
  {
    FilterIsSubsequence(ts, t => InQuarter(q, t));
    FilterMultiset(ts, t => InQuarter(q, t));
    Filter(ts, t => InQuarter(q, t))
  }

  /** One `categoryBreakdown` entry, keyed by its category id. */
  datatype Entry = Entry(id: string, title: string, kind: string, amount: real, taxDeductibleAmount: real, transactionCount: nat)

  /** The object `calculateQuarterSummary` returns; the breakdown lists its entries in key-insertion order. */
  datatype Summary = Summary(totalIncome: real, totalExpenses: real, totalTaxDeductibleExpenses: real, categoryBreakdown: seq<Entry>)

  predicate UniqueEntryIds(b: seq<Entry>) {
    forall i, j :: 0 <= i < j < |b| ==> b[i].id != b[j].id
  }

  /** Position of the entry with key `id`, or `|b|` when there is none. */
  function IndexOf(b: seq<Entry>, id: string): nat {
    FirstIndex(b, (e: Entry) => e.id == id)
  }

  /** `breakdown[e.id] = e`: replaces the value of an existing key in place, otherwise adds the key last. */
  function Put(b: seq<Entry>, e: Entry): (r: seq<Entry>)
    requires UniqueEntryIds(b)
    ensures UniqueEntryIds(r)
    ensures var k := IndexOf(b, e.id);
      if k < |b| then r == b[k := e] else r == b + [e]
  {
    var k := IndexOf(b, e.id);
    if k < |b| then b[k := e] else b + [e]
  }

  function ZeroEntry(c: Category): Entry {
    Entry(c.id, c.title, c.kind, 0.0, 0.0, 0)
  }

  /** The breakdown after the first `forEach`: one zeroed entry per supplied category id. */
  function InitBreakdown(cats: seq<Category>): (b: seq<Entry>)
    ensures UniqueEntryIds(b)
    ensures forall k :: 0 <= k < |b| ==> b[k].amount == 0.0 && b[k].taxDeductibleAmount == 0.0 && b[k].transactionCount == 0
  {
    if cats == [] then [] else Put(InitBreakdown(cats[..|cats| - 1]), ZeroEntry(cats[|cats| - 1]))
  }

  /** The breakdown has an entry with key `id`. */
  predicate HasKey(b: seq<Entry>, id: string) {
    exists j :: 0 <= j < |b| && b[j].id == id
  }

  /** `IndexOf` finds a key exactly when the breakdown has it. */
  lemma IndexOfFound(b: seq<Entry>, id: string)
    ensures IndexOf(b, id) < |b| <==> HasKey(b, id)
  {
    if HasKey(b, id) {
      var j :| 0 <= j < |b| && b[j].id == id;
      assert IndexOf(b, id) <= j;
    }
  }

  /** `Put` adds the key of its entry and keeps every other key. */
  lemma PutKeys(b: seq<Entry>, e: Entry, id: string)
    requires UniqueEntryIds(b)
    ensures HasKey(Put(b, e), id) <==> HasKey(b, id) || e.id == id
  {
    var r := Put(b, e);
    var k := IndexOf(b, e.id);
    if HasKey(b, id) {
      var j :| 0 <= j < |b| && b[j].id == id;
      assert r[j].id == id;
    }
    if e.id == id {
      assert r[if k < |b| then k else |b|] == e;
    }
    if HasKey(r, id) {
      var j :| 0 <= j < |r| && r[j].id == id;
      if j < |b| && r[j] != e { assert b[j] == r[j]; }
    }
  }

  /** The initial breakdown has a key for every supplied category and no other. */
  lemma {:induction false} InitBreakdownKeys(cats: seq<Category>, id: string)
    ensures IndexOf(InitBreakdown(cats), id) < |InitBreakdown(cats)| <==> exists i :: 0 <= i < |cats| && cats[i].id == id
  {
    IndexOfFound(InitBreakdown(cats), id);
    if cats != [] {
      var init := cats[..|cats| - 1];
      var c := cats[|cats| - 1];
      InitBreakdownKeys(init, id);
      IndexOfFound(InitBreakdown(init), id);
      PutKeys(InitBreakdown(init), ZeroEntry(c), id);
      if exists i :: 0 <= i < |init| && init[i].id == id {
        var i :| 0 <= i < |init| && init[i].id == id;
        assert cats[i].id == id;
      }
      if exists i :: 0 <= i < |cats| && cats[i].id == id {
        var i :| 0 <= i < |cats| && cats[i].id == id;
        if i < |init| { assert init[i].id == id; }
      }
    }
  }

  /** With unique category ids the initial breakdown is exactly one zeroed entry per category, in order. */
  lemma {:induction false} InitBreakdownExact(cats: seq<Category>)
    requires UniqueIds(cats)
    ensures |InitBreakdown(cats)| == |cats|
    ensures forall k :: 0 <= k < |cats| ==> InitBreakdown(cats)[k] == ZeroEntry(cats[k])
  {
    if cats != [] {
      var init := cats[..|cats| - 1];
      var c := cats[|cats| - 1];
      assert UniqueIds(init);
      InitBreakdownExact(init);
    }
  }

  function AddTo(e: Entry, amount: real, deductible: real): Entry {
    e.(amount := e.amount + amount, taxDeductibleAmount := e.taxDeductibleAmount + deductible,
       transactionCount := e.transactionCount + 1)
  }

  /** The body of the second `forEach` for one transaction: totals by type, then the entry of its
      category when the breakdown has one. */
  function Step(s: Summary, t: Transaction): Summary {
    var amount := Abs(t.amount);
    var deductible := TaxDeductible(t);
    var s1 := if t.kind == "income" then s.(totalIncome := s.totalIncome + amount)
              else s.(totalExpenses := s.totalExpenses + amount,
                      totalTaxDeductibleExpenses := s.totalTaxDeductibleExpenses + deductible);
    var b := s.categoryBreakdown;
    var k := IndexOf(b, t.category);
    if k < |b| then s1.(categoryBreakdown := b[k := AddTo(b[k], amount, deductible)]) else s1
  }

  /** The summary after the second `forEach` has run over `ts`. */
  function Accumulate(s: Summary, ts: seq<Transaction>): Summary {
    if ts == [] then s else Step(Accumulate(s, ts[..|ts| - 1]), ts[|ts| - 1])
  }

  /** What `calculateQuarterSummary(transactions, quarter, userCategories)` returns. */
  function QuarterSummary(ts: seq<Transaction>, q: Quarter, cats: seq<Category>): Summary {
    Accumulate(Summary(0.0, 0.0, 0.0, InitBreakdown(cats)), FilterByQuarter(ts, q))
  }

  /** `calculateQuarterSummary`: builds the summary object field by field in two loops. */
  method CalculateQuarterSummary(transactions: seq<Transaction>, quarter: Quarter, userCategories: seq<Category>)
    returns (summary: Summary)
    ensures summary == QuarterSummary(transactions, quarter, userCategories)
  {
    var quarterTransactions := FilterByQuarter(transactions, quarter);
    summary := Summary(0.0, 0.0, 0.0, []);
    var i := 0;
    while i < |userCategories|
      invariant 0 <= i <= |userCategories|
      invariant summary == Summary(0.0, 0.0, 0.0, InitBreakdown(userCategories[..i]))
    {
      var category := userCategories[i];
      summary := summary.(categoryBreakdown := Put(summary.categoryBreakdown, ZeroEntry(category)));
      assert userCategories[..i + 1][..i] == userCategories[..i];
      i := i + 1;
    }
    assert userCategories[..i] == userCategories;
    ghost var initial := summary;
    var j := 0;
    while j < |quarterTransactions|
      invariant 0 <= j <= |quarterTransactions|
      invariant summary == Accumulate(initial, quarterTransactions[..j])
    {
      summary := ApplyTransaction(summary, quarterTransactions[j]);
      assert quarterTransactions[..j + 1][..j] == quarterTransactions[..j];
      j := j + 1;
    }
    assert quarterTransactions[..j] == quarterTransactions;
  }

  /** The callback of the second `forEach`: adds one transaction to the totals and to its category's entry. */
  method ApplyTransaction(summary: Summary, transaction: Transaction) returns (updated: Summary)
    ensures updated == Step(summary, transaction)
  {
    updated := summary;
    var amount := Abs(transaction.amount);
    var taxDeductibleAmount := CalculateTaxDeductibleAmount(transaction);
    if transaction.kind == "income" {
      updated := updated.(totalIncome := updated.totalIncome + amount);
    } else {
      updated := updated.(totalExpenses := updated.totalExpenses + amount,
                          totalTaxDeductibleExpenses := updated.totalTaxDeductibleExpenses + taxDeductibleAmount);
    }
    var k := IndexOf(updated.categoryBreakdown, transaction.category);
    if k < |updated.categoryBreakdown| {
      var entry := updated.categoryBreakdown[k];
      updated := updated.(categoryBreakdown := updated.categoryBreakdown[k := AddTo(entry, amount, taxDeductibleAmount)]);
    }
  }

  // ---- What the summary adds up ----

  predicate IsIncome(t: Transaction) {
    t.kind == "income"
  }

  predicate IsNotIncome(t: Transaction) {
    t.kind != "income"
  }

  /** Σ |amount| over `ts`. */
  function SumAbs(ts: seq<Transaction>): real {
    if ts == [] then 0.0 else SumAbs(ts[..|ts| - 1]) + Abs(ts[|ts| - 1].amount)
  }

  /** Σ deductible amount over `ts`. */
  function SumDeductible(ts: seq<Transaction>): real {
    if ts == [] then 0.0 else SumDeductible(ts[..|ts| - 1]) + TaxDeductible(ts[|ts| - 1])
  }

  /** The transactions of `ts` filed under category `id`, in order. */
  function OfCategory(ts: seq<Transaction>, id: string): (r: seq<Transaction>)
    ensures |r| <= |ts|
  {
    if ts == [] then []
    else OfCategory(ts[..|ts| - 1], id) + (if ts[|ts| - 1].category == id then [ts[|ts| - 1]] else [])
  }

  lemma SumsSnoc(xs: seq<Transaction>, t: Transaction)
    ensures SumAbs(xs + [t]) == SumAbs(xs) + Abs(t.amount)
    ensures SumDeductible(xs + [t]) == SumDeductible(xs) + TaxDeductible(t)
  {
    assert (xs + [t])[..|xs + [t]| - 1] == xs;
  }

  /** The running totals after `ts`: income adds its absolute amount to `totalIncome`; everything else
      adds its absolute amount to `totalExpenses` and its deductible amount to `totalTaxDeductibleExpenses`. */
  lemma {:induction false} AccumulateTotals(s: Summary, ts: seq<Transaction>)
    ensures Accumulate(s, ts).totalIncome == s.totalIncome + SumAbs(Filter(ts, IsIncome))
    ensures Accumulate(s, ts).totalExpenses == s.totalExpenses + SumAbs(Filter(ts, IsNotIncome))
    ensures Accumulate(s, ts).totalTaxDeductibleExpenses == s.totalTaxDeductibleExpenses + SumDeductible(Filter(ts, IsNotIncome))
  {
    if ts != [] {
      var init := ts[..|ts| - 1];
      var t := ts[|ts| - 1];
      AccumulateTotals(s, init);
      StepTotals(Accumulate(s, init), t);
      if IsIncome(t) {
        assert Filter(ts, IsIncome) == Filter(init, IsIncome) + [t];
        assert Filter(ts, IsNotIncome) == Filter(init, IsNotIncome);
        SumsSnoc(Filter(init, IsIncome), t);
      } else {
        assert Filter(ts, IsIncome) == Filter(init, IsIncome);
        assert Filter(ts, IsNotIncome) == Filter(init, IsNotIncome) + [t];
        SumsSnoc(Filter(init, IsNotIncome), t);
      }
    }
  }

  /** One step adds to the totals exactly as its transaction's kind says. */
  lemma StepTotals(s: Summary, t: Transaction)
    ensures Step(s, t).totalIncome == s.totalIncome + (if IsIncome(t) then Abs(t.amount) else 0.0)
    ensures Step(s, t).totalExpenses == s.totalExpenses + (if IsIncome(t) then 0.0 else Abs(t.amount))
    ensures Step(s, t).totalTaxDeductibleExpenses
         == s.totalTaxDeductibleExpenses + (if IsIncome(t) then 0.0 else TaxDeductible(t))
  {
  }

  /** The totals of `calculateQuarterSummary` count exactly the in-window transactions: income by
      absolute amount; non-income by absolute amount and by deductible amount. */
  lemma QuarterTotals(ts: seq<Transaction>, q: Quarter, cats: seq<Category>)
    ensures var s := QuarterSummary(ts, q, cats); var inRange := FilterByQuarter(ts, q);
      && s.totalIncome == SumAbs(Filter(inRange, IsIncome))
      && s.totalExpenses == SumAbs(Filter(inRange, IsNotIncome))
      && s.totalTaxDeductibleExpenses == SumDeductible(Filter(inRange, IsNotIncome))
  {
    AccumulateTotals(Summary(0.0, 0.0, 0.0, InitBreakdown(cats)), FilterByQuarter(ts, q));
  }

  /** Over expenses, the deductible sum never exceeds the absolute sum, and is not negative when no
      private-use percentage exceeds 100. */
  lemma {:induction false} DeductibleSumBounds(xs: seq<Transaction>)
    requires forall i :: 0 <= i < |xs| ==> xs[i].kind != "income"
    ensures SumDeductible(xs) <= SumAbs(xs)
    ensures (forall i :: 0 <= i < |xs| ==> xs[i].privateUsePercentage <= 100) ==> SumDeductible(xs) >= 0.0
  {
    if xs != [] {
      DeductibleSumBounds(xs[..|xs| - 1]);
    }
  }

  /** `totalTaxDeductibleExpenses <= totalExpenses` for every input. */
  lemma DeductibleWithinExpenses(ts: seq<Transaction>, q: Quarter, cats: seq<Category>)
    ensures QuarterSummary(ts, q, cats).totalTaxDeductibleExpenses <= QuarterSummary(ts, q, cats).totalExpenses
  {
    QuarterTotals(ts, q, cats);
    DeductibleSumBounds(Filter(FilterByQuarter(ts, q), IsNotIncome));
  }

  // ---- What the breakdown records ----

  /** Two breakdowns with the same keys, labels and types in the same order. */
  predicate SameKeys(a: seq<Entry>, b: seq<Entry>) {
    |a| == |b| && forall k :: 0 <= k < |a| ==> a[k].id == b[k].id && a[k].title == b[k].title && a[k].kind == b[k].kind
  }

  lemma {:induction false} IndexOfSameKeys(a: seq<Entry>, b: seq<Entry>, id: string)
    requires SameKeys(a, b)
    ensures IndexOf(a, id) == IndexOf(b, id)
  {
    if a != [] && a[0].id != id {
      assert SameKeys(a[1..], b[1..]);
      IndexOfSameKeys(a[1..], b[1..], id);
    }
  }

  /** With unique keys, the entry keyed `b[k].id` is the one at `k`. */
  lemma IndexOfUnique(b: seq<Entry>, k: int)
    requires UniqueEntryIds(b) && 0 <= k < |b|
    ensures IndexOf(b, b[k].id) == k
  {
  }

  /** The second `forEach` never adds, removes or relabels a key; each entry gains exactly the
      absolute amounts, deductible amounts and count of the transactions filed under its key. */
  lemma {:induction false} AccumulateBreakdown(s: Summary, ts: seq<Transaction>)
    requires UniqueEntryIds(s.categoryBreakdown)
    ensures var b, b' := s.categoryBreakdown, Accumulate(s, ts).categoryBreakdown;
      && SameKeys(b, b') && UniqueEntryIds(b')
      && forall k :: 0 <= k < |b| ==>
        && b'[k].amount == b[k].amount + SumAbs(OfCategory(ts, b[k].id))
        && b'[k].taxDeductibleAmount == b[k].taxDeductibleAmount + SumDeductible(OfCategory(ts, b[k].id))
        && b'[k].transactionCount == b[k].transactionCount + |OfCategory(ts, b[k].id)|
  {
    var b := s.categoryBreakdown;
    if ts != [] {
      var init := ts[..|ts| - 1];
      var t := ts[|ts| - 1];
      AccumulateBreakdown(s, init);
      var mid := Accumulate(s, init).categoryBreakdown;
      var b' := Accumulate(s, ts).categoryBreakdown;
      assert Accumulate(s, ts) == Step(Accumulate(s, init), t);
      forall k | 0 <= k < |b|
        ensures b'[k].amount == b[k].amount + SumAbs(OfCategory(ts, b[k].id))
        ensures b'[k].taxDeductibleAmount == b[k].taxDeductibleAmount + SumDeductible(OfCategory(ts, b[k].id))
        ensures b'[k].transactionCount == b[k].transactionCount + |OfCategory(ts, b[k].id)|
      {
        var xs := OfCategory(init, b[k].id);
        if t.category == b[k].id {
          IndexOfUnique(mid, k);
          SumsSnoc(xs, t);
        } else {
          assert OfCategory(ts, b[k].id) == xs;
        }
      }
    } else {
      assert Accumulate(s, ts) == s;
    }
  }

  /** Σ of the entries' transaction counts. */
  function CountSum(b: seq<Entry>): nat {
    if b == [] then 0 else CountSum(b[..|b| - 1]) + b[|b| - 1].transactionCount
  }

  lemma {:induction false} CountSumAdd(b: seq<Entry>, k: int, e: Entry)
    requires 0 <= k < |b| && e.transactionCount == b[k].transactionCount + 1
    ensures CountSum(b[k := e]) == CountSum(b) + 1
  {
    var b' := b[k := e];
    if k < |b| - 1 {
      assert b'[..|b'| - 1] == b[..|b| - 1][k := e];
      CountSumAdd(b[..|b| - 1], k, e);
    } else {
      assert b'[..|b'| - 1] == b[..|b| - 1];
    }
  }

  /** Each transaction adds at most one to one entry's count, so the counts grow by at most `|ts|`
      (by less when some category has no entry). */
  lemma {:induction false} CountSumBound(s: Summary, ts: seq<Transaction>)
    ensures CountSum(Accumulate(s, ts).categoryBreakdown) <= CountSum(s.categoryBreakdown) + |ts|
  {
    if ts != [] {
      var init := ts[..|ts| - 1];
      var t := ts[|ts| - 1];
      CountSumBound(s, init);
      var mid := Accumulate(s, init);
      var k := IndexOf(mid.categoryBreakdown, t.category);
      if k < |mid.categoryBreakdown| {
        CountSumAdd(mid.categoryBreakdown, k, AddTo(mid.categoryBreakdown[k], Abs(t.amount), TaxDeductible(t)));
      }
    }
  }

  lemma {:induction false} CountSumZero(b: seq<Entry>)
    requires forall k :: 0 <= k < |b| ==> b[k].transactionCount == 0
    ensures CountSum(b) == 0
  {
    if b != [] {
      CountSumZero(b[..|b| - 1]);
    }
  }

  /** The breakdown of `calculateQuarterSummary`: one entry per supplied category, in order (for the
      fixed taxonomies, whose ids are unique); each entry sums exactly the in-window transactions filed
      under it; the counts add up to at most the number of in-window transactions. */
  lemma QuarterBreakdown(ts: seq<Transaction>, q: Quarter, cats: seq<Category>)
    requires UniqueIds(cats)
    ensures var b := QuarterSummary(ts, q, cats).categoryBreakdown; var inRange := FilterByQuarter(ts, q);
      && |b| == |cats|
      && (forall k :: 0 <= k < |b| ==>
        && b[k].id == cats[k].id && b[k].title == cats[k].title && b[k].kind == cats[k].kind
        && b[k].amount == SumAbs(OfCategory(inRange, cats[k].id))
        && b[k].taxDeductibleAmount == SumDeductible(OfCategory(inRange, cats[k].id))
        && b[k].transactionCount == |OfCategory(inRange, cats[k].id)|)
      && CountSum(b) <= |inRange|
  {
    var s := Summary(0.0, 0.0, 0.0, InitBreakdown(cats));
    InitBreakdownExact(cats);
    AccumulateBreakdown(s, FilterByQuarter(ts, q));
    CountSumBound(s, FilterByQuarter(ts, q));
    CountSumZero(s.categoryBreakdown);
  }

  /** A transaction whose category has no entry changes only the totals. */
  lemma UnknownCategoryOnlyTotals(s: Summary, t: Transaction)
    requires IndexOf(s.categoryBreakdown, t.category) == |s.categoryBreakdown|
    ensures Step(s, t).categoryBreakdown == s.categoryBreakdown
    ensures Step(s, t).totalIncome + Step(s, t).totalExpenses == s.totalIncome + s.totalExpenses + Abs(t.amount)
  {
  }

  /** Appending a transaction to the list: when it falls in the window it is one more step of the
      second loop; otherwise the summary is unchanged. */
  lemma QuarterSummarySnoc(ts: seq<Transaction>, t: Transaction, q: Quarter, cats: seq<Category>)
    ensures QuarterSummary(ts + [t], q, cats) ==
      if Within(t.date, q.start, q.end) then Step(QuarterSummary(ts, q, cats), t) else QuarterSummary(ts, q, cats)
  {
    FilterAppend(ts, [t], x => InQuarter(q, x));
    assert Filter([t], x => InQuarter(q, x)) == if InQuarter(q, t) then [t] else [];
    var f := FilterByQuarter(ts, q);
    assert (f + [t])[..|f + [t]| - 1] == f;
  }
}
