/** The quarterly report (src/components/reports/Reports.jsx:21-67, 168-177, 205-265): which quarter is
    reported, the exported report object and its file name, and the ranked income and expense
    categories with their shares. */
module Reports {
  import opened Wrappers
  import opened Text
  import opened Seqs
  import opened Dates
  import opened Sorting
  import opened Records
  import opened Categories
  import opened TaxCalendar
  import opened Ledger

  /** The fields of the signed-in user's profile the report reads; the profile itself may be missing. */
  datatype Profile = Profile(userType: Option<string>, calendarElection: Option<bool>)

  /** `userProfile?.calendarElection`, as a truth value (`|| false` in the export). */
  predicate Election(profile: Option<Profile>) {
    profile.Some? && profile.value.calendarElection == Some(true)
  }

  // ---- Quarter selection ----

  /** Index of the first quarter with selection value `value`, or `|qs|`. */
  function FindValue(qs: seq<Quarter>, value: string): nat {
    FirstIndex(qs, (q: Quarter) => q.value == value)
  }

  /** `selectedQuarterData`: the current tax year's quarter whose value is the selection, or the
      current quarter when none has it. */
  function SelectedQuarter(now: Date, profile: Option<Profile>, selection: string): (q: Quarter)
    requires Valid(now)
    ensures q in TaxYearQuarters(CurrentTaxYear(now), Election(profile))
    ensures q.value == selection || q == CurrentQuarter(now, Election(profile))
  {
    var qs := TaxYearQuarters(CurrentTaxYear(now), Election(profile));
    var k := FindValue(qs, selection);
    if k < |qs| then qs[k]
    else
      var current := CurrentQuarter(now, Election(profile));
      assert current in qs by { CurrentQuarterListed(now, Election(profile)); }
      current
  }

  lemma CurrentQuarterListed(now: Date, calendar: bool)
    requires Valid(now)
    ensures CurrentQuarter(now, calendar) in TaxYearQuarters(CurrentTaxYear(now), calendar)
  {
  }

  /** Choosing a quarter's value reports that quarter (for a tax year written without a sign). */
  lemma SelectionByValue(now: Date, profile: Option<Profile>, i: int)
    requires Valid(now) && CurrentTaxYear(now) >= 0 && 0 <= i < 4
    ensures var qs := TaxYearQuarters(CurrentTaxYear(now), Election(profile));
      SelectedQuarter(now, profile, qs[i].value) == qs[i]
  {
    var y := CurrentTaxYear(now);
    var qs := TaxYearQuarters(y, Election(profile));
    var k := FindValue(qs, qs[i].value);
    assert k <= i;
    QuarterValueInjective(y, Election(profile), k, y, Election(profile), i);
  }

  /** The initial selection, the current quarter's value, reports the current quarter. */
  lemma InitialSelection(now: Date, profile: Option<Profile>)
    requires Valid(now) && CurrentTaxYear(now) >= 0
    ensures SelectedQuarter(now, profile, CurrentQuarter(now, Election(profile)).value)
            == CurrentQuarter(now, Election(profile))
  {
    var qs := TaxYearQuarters(CurrentTaxYear(now), Election(profile));
    var current := CurrentQuarter(now, Election(profile));
    CurrentQuarterListed(now, Election(profile));
    var i :| 0 <= i < 4 && qs[i] == current;
    SelectionByValue(now, profile, i);
  }

  // ---- Report object ----

  datatype ReportSummary = ReportSummary(totalIncome: real, totalExpenses: real, totalTaxDeductibleExpenses: real,
                                         netPosition: real)

  datatype Report = Report(
    quarter: string,
    period: string,
    taxYear: string,
    calendarElection: bool,
    userType: string,
    summary: ReportSummary,
    categoryBreakdown: seq<Entry>)

  /** The summary on screen: the selected quarter's summary over the displayed transactions, with the
      categories of the store's user type. */
  function ReportedSummary(now: Date, profile: Option<Profile>, selection: string,
                           ts: seq<Transaction>, userType: Option<string>): Summary
    requires Valid(now)
  {
    QuarterSummary(ts, SelectedQuarter(now, profile, selection), GetUserCategories(userType))
  }

  /** `report` as `exportMTDReport` assembles it. */
  function BuildReport(now: Date, profile: Option<Profile>, selection: string,
                       ts: seq<Transaction>, userType: Option<string>): (r: Report)
    requires Valid(now)
    ensures r.taxYear == TaxYearText(CurrentTaxYear(now))
    ensures r.calendarElection == Election(profile)
    ensures r.userType == "Sole Trader" <==> profile.Some? && profile.value.userType == Some("sole_trader")
    ensures r.userType == "Sole Trader" || r.userType == "Landlord"
  {
    var q := SelectedQuarter(now, profile, selection);
    var s := ReportedSummary(now, profile, selection, ts, userType);
    var y := CurrentTaxYear(now);
    Report(q.title, DateText(q.start) + " to " + DateText(q.end),
      IntToString(y) + "/" + TakeLast2(IntToString(y + 1)),
      Election(profile),
      if profile.Some? && profile.value.userType == Some("sole_trader") then "Sole Trader" else "Landlord",
      ReportSummary(s.totalIncome, s.totalExpenses, s.totalTaxDeductibleExpenses,
                    s.totalIncome - s.totalTaxDeductibleExpenses),
      s.categoryBreakdown)
  }

  /** The exported totals are the selected quarter's sums, and the net position is income less the
      deductible expenses, so it is never below income less all expenses. */
  lemma ReportTotals(now: Date, profile: Option<Profile>, selection: string, ts: seq<Transaction>, userType: Option<string>)
    requires Valid(now)
    ensures var r := BuildReport(now, profile, selection, ts, userType);
      var inRange := FilterByQuarter(ts, SelectedQuarter(now, profile, selection));
      && r.summary.totalIncome == SumAbs(Filter(inRange, IsIncome))
      && r.summary.totalExpenses == SumAbs(Filter(inRange, IsNotIncome))
      && r.summary.totalTaxDeductibleExpenses == SumDeductible(Filter(inRange, IsNotIncome))
      && r.summary.netPosition == r.summary.totalIncome - r.summary.totalTaxDeductibleExpenses
      && r.summary.netPosition >= r.summary.totalIncome - r.summary.totalExpenses
  {
    var q := SelectedQuarter(now, profile, selection);
    var cats := GetUserCategories(userType);
    QuarterTotals(ts, q, cats);
    DeductibleWithinExpenses(ts, q, cats);
  }

  /** The report's tax year is the one every quarter label names: the reported quarter's label is
      `Q<n> ` followed by the report's `taxYear`. */
  lemma ReportLabelNamesTaxYear(now: Date, profile: Option<Profile>, selection: string,
                                ts: seq<Transaction>, userType: Option<string>)
    requires Valid(now)
    ensures var r := BuildReport(now, profile, selection, ts, userType);
      |r.quarter| >= 3 && r.quarter[3..] == r.taxYear && r.quarter[..3] in ["Q1 ", "Q2 ", "Q3 ", "Q4 "]
  {
    var qs := TaxYearQuarters(CurrentTaxYear(now), Election(profile));
    var q := SelectedQuarter(now, profile, selection);
    var i :| 0 <= i < 4 && qs[i] == q;
    assert q.title == QuarterLabel(CurrentTaxYear(now), i);
    LabelSplit(CurrentTaxYear(now), i);
  }

  /** A quarter label is `Q<n> ` followed by the tax-year text. */
  lemma LabelSplit(taxYear: int, i: int)
    requires 0 <= i < 4
    ensures var l := QuarterLabel(taxYear, i);
      |l| >= 3 && l[3..] == TaxYearText(taxYear) && l[..3] in ["Q1 ", "Q2 ", "Q3 ", "Q4 "]
  {
    var l, t := QuarterLabel(taxYear, i), TaxYearText(taxYear);
    var prefix := ['Q', DigitChar(i + 1), ' '];
    LabelChars(taxYear, i);
    assert l == prefix + t;
    assert l[..3] == prefix && l[3..] == t;
    QuarterPrefix(i);
  }

  /** The three-character prefix of the label of quarter `i`. */
  lemma QuarterPrefix(i: int)
    requires 0 <= i < 4
    ensures ['Q', DigitChar(i + 1), ' '] == ["Q1 ", "Q2 ", "Q3 ", "Q4 "][i]
  {
  }

  /** A quarter label, character by character: `Q`, the quarter's digit, a space, the tax-year text. */
  lemma LabelChars(taxYear: int, i: int)
    requires 0 <= i < 4
    ensures QuarterLabel(taxYear, i) == ['Q', DigitChar(i + 1), ' '] + TaxYearText(taxYear)
  {
    var t := TaxYearText(taxYear);
    assert "Q" + [DigitChar(i + 1)] + " " == ['Q', DigitChar(i + 1), ' '];
  }

  // ---- File name ----

  /** `s.replace(/\s+/g, '-')`: every run of white space becomes one `-` (written where the run ends). */
  function DashWhitespace(s: string): (r: string)
    ensures |r| <= |s|
    decreases |s|
  {
    if s == [] then []
    else if IsWhitespace(s[0]) && |s| > 1 && IsWhitespace(s[1]) then DashWhitespace(s[1..])
    else if IsWhitespace(s[0]) then "-" + DashWhitespace(s[1..])
    else [s[0]] + DashWhitespace(s[1..])
  }

  /** No white space is left after the replacement. */
  lemma {:induction false} DashRemovesWhitespace(s: string)
    ensures forall i :: 0 <= i < |DashWhitespace(s)| ==> !IsWhitespace(DashWhitespace(s)[i])
    decreases |s|
  {
    if s != [] {
      DashRemovesWhitespace(s[1..]);
    }
  }

  /** Text without white space is left as it is. */
  lemma {:induction false} DashNoWhitespace(s: string)
    requires forall i :: 0 <= i < |s| ==> !IsWhitespace(s[i])
    ensures DashWhitespace(s) == s
  {
    if s != [] {
      DashNoWhitespace(s[1..]);
    }
  }

  /** The downloaded file's name: `mtd-report-<Y>-<label, white space runs as '-', lower-cased>.json`. */
  function FileName(taxYear: int, title: string): string {
    "mtd-report-" + IntToString(taxYear) + "-" + ToLower(DashWhitespace(title)) + ".json"
  }

  /** For a quarter label the name is `mtd-report-<Y>-q<n>-<Y/YY>.json`. */
  lemma QuarterFileName(taxYear: nat, i: int)
    requires 0 <= i < 4
    ensures FileName(taxYear, QuarterLabel(taxYear, i))
            == "mtd-report-" + IntToString(taxYear) + "-" + (['q', DigitChar(i + 1), '-'] + TaxYearText(taxYear)) + ".json"
  {
    var t := TaxYearText(taxYear);
    var digit := DigitChar(i + 1);
    TaxYearTextPlain(taxYear);
    DashNoWhitespace(t);
    LabelChars(taxYear, i);
    DashLabel(digit, t);
    LowerLabel(digit, t);
  }

  lemma DashLabel(digit: char, t: string)
    requires !IsWhitespace(digit)
    requires t == [] || !IsWhitespace(t[0])
    ensures DashWhitespace(['Q', digit, ' '] + t) == ['Q', digit, '-'] + DashWhitespace(t)
  {
    var s2 := [' '] + t;
    var s1 := [digit] + s2;
    var d := DashWhitespace(t);
    DashLoneSpace(' ', t);
    DashKept(digit, s2);
    DashKept('Q', s1);
    assert ['Q', digit, ' '] + t == ['Q'] + s1;
    assert ['Q'] + ([digit] + ("-" + d)) == ['Q', digit, '-'] + d;
  }

  /** A character that is not white space is copied. */
  lemma DashKept(c: char, rest: string)
    requires !IsWhitespace(c)
    ensures DashWhitespace([c] + rest) == [c] + DashWhitespace(rest)
  {
    assert ([c] + rest)[1..] == rest;
  }

  /** A lone white-space character becomes one `-`. */
  lemma DashLoneSpace(c: char, rest: string)
    requires IsWhitespace(c) && (rest == [] || !IsWhitespace(rest[0]))
    ensures DashWhitespace([c] + rest) == "-" + DashWhitespace(rest)
  {
    assert ([c] + rest)[1..] == rest;
  }


  lemma LowerLabel(digit: char, t: string)
    requires LowerChar(digit) == digit
    requires forall k :: 0 <= k < |t| ==> LowerChar(t[k]) == t[k]
    ensures ToLower(['Q', digit, '-'] + t) == ['q', digit, '-'] + t
  {
    var dashed := ['Q', digit, '-'] + t;
    var lowered := ['q', digit, '-'] + t;
    forall k | 0 <= k < |dashed|
      ensures LowerChar(dashed[k]) == lowered[k]
    {
      if k >= 3 {
        assert dashed[k] == t[k - 3] == lowered[k];
      }
    }
  }

  /** A non-negative tax year's text is digits and a slash: nothing white, nothing upper-case. */
  lemma TaxYearTextPlain(taxYear: nat)
    ensures var t := TaxYearText(taxYear);
      && (forall k :: 0 <= k < |t| ==> !IsWhitespace(t[k]) && LowerChar(t[k]) == t[k])
      && (t == [] || !IsWhitespace(t[0]))
  {
    var a := IntToString(taxYear);
    var b := TakeLast2(IntToString(taxYear + 1));
    assert AllDigits(a) && AllDigits(IntToString(taxYear + 1));
    assert AllDigits(b);
    assert TaxYearText(taxYear) == a + "/" + b;
  }

  // ---- Category ranking ----

  predicate ActiveIncome(e: Entry) {
    e.kind == "income" && e.transactionCount > 0
  }

  predicate ActiveExpense(e: Entry) {
    e.kind == "expense" && e.transactionCount > 0
  }

  function AmountKey(e: Entry): Key {
    Num(e.amount)
  }

  /** The breakdown entries satisfying `p`, largest amount first. */
  function Ranked(b: seq<Entry>, p: Entry -> bool): (r: seq<Entry>)
    ensures multiset(r) == multiset(Filter(b, p))
    ensures forall i :: 0 <= i < |r| ==> p(r[i]) && r[i] in b
    ensures forall i :: 0 <= i < |b| && p(b[i]) ==> b[i] in r
    ensures forall i, j :: 0 <= i < j < |r| ==> r[i].amount >= r[j].amount
  {
    var f := Filter(b, p);
    var r := SortBy(f, AmountKey, true);
    assert SortedBy(r, AmountKey, true);
    forall i | 0 <= i < |r|
      ensures p(r[i]) && r[i] in b
    {
      assert r[i] in multiset(f);
    }
    forall i | 0 <= i < |b| && p(b[i])
      ensures b[i] in r
    {
      assert b[i] in multiset(f);
    }
    forall i, j | 0 <= i < j < |r|
      ensures r[i].amount >= r[j].amount
    {
      assert InOrder(AmountKey(r[i]), AmountKey(r[j]), true);
    }
    r
  }

  /** `incomeCategories`. */
  function IncomeCategories(b: seq<Entry>): seq<Entry> {
    Ranked(b, ActiveIncome)
  }

  /** `expenseCategories`. */
  function ExpenseCategories(b: seq<Entry>): seq<Entry> {
    Ranked(b, ActiveExpense)
  }

  /** The breakdown entry with a category's id is the entry built for that category. */
  lemma EntryOfCategory(ts: seq<Transaction>, q: Quarter, cats: seq<Category>, k: int, e: Entry)
    requires UniqueIds(cats) && 0 <= k < |cats|
    requires e in QuarterSummary(ts, q, cats).categoryBreakdown && e.id == cats[k].id
    ensures var b := QuarterSummary(ts, q, cats).categoryBreakdown;
      |b| == |cats| && e == b[k]
  {
    var b := QuarterSummary(ts, q, cats).categoryBreakdown;
    BreakdownIds(ts, q, cats);
    var j :| 0 <= j < |b| && b[j] == e;
    assert cats[j].id == cats[k].id;
  }

  /** A quarter's breakdown lists the categories' ids in order. */
  lemma BreakdownIds(ts: seq<Transaction>, q: Quarter, cats: seq<Category>)
    requires UniqueIds(cats)
    ensures var b := QuarterSummary(ts, q, cats).categoryBreakdown;
      |b| == |cats| && forall k :: 0 <= k < |b| ==> b[k].id == cats[k].id
  {
    QuarterBreakdown(ts, q, cats);
  }

  /** Over a quarter's breakdown, a category is ranked among the income (expense) categories exactly when
      it is an income (expense) category that some transaction of the quarter carries; the ranked amount
      is the sum of their absolute amounts. */
  lemma RankedCategoriesUsed(ts: seq<Transaction>, q: Quarter, cats: seq<Category>, k: int)
    requires UniqueIds(cats) && 0 <= k < |cats|
    ensures var b := QuarterSummary(ts, q, cats).categoryBreakdown;
      var used := OfCategory(FilterByQuarter(ts, q), cats[k].id);
      && |b| == |cats|
      && (b[k] in IncomeCategories(b) <==> cats[k].kind == "income" && used != [])
      && (b[k] in ExpenseCategories(b) <==> cats[k].kind == "expense" && used != [])
      && b[k].amount == SumAbs(used)
  {
    var b := QuarterSummary(ts, q, cats).categoryBreakdown;
    QuarterBreakdown(ts, q, cats);
    assert b[k] in b;
  }

  /** Every ranked entry is the entry of its own category. */
  lemma RankedEntryIsOwn(ts: seq<Transaction>, q: Quarter, cats: seq<Category>, e: Entry)
    requires UniqueIds(cats)
    requires var b := QuarterSummary(ts, q, cats).categoryBreakdown;
      e in IncomeCategories(b) || e in ExpenseCategories(b)
    ensures var b := QuarterSummary(ts, q, cats).categoryBreakdown;
      |b| == |cats| && exists k :: 0 <= k < |cats| && cats[k].id == e.id && e == b[k]
  {
    var b := QuarterSummary(ts, q, cats).categoryBreakdown;
    QuarterBreakdown(ts, q, cats);
    var k :| 0 <= k < |b| && b[k] == e;
    assert cats[k].id == e.id;
  }

  /** The share shown next to a category: `'0%'` when the total is not positive, otherwise the
      percentage (shown to one decimal place). */
  datatype Share = ZeroShare | Percent(value: real)

  function ShareOf(amount: real, total: real): (r: Share)
    ensures r.Percent? <==> total > 0.0
    ensures r.Percent? ==> r.value * total == amount * 100.0
  {
    if total > 0.0 then Percent(amount / total * 100.0) else ZeroShare
  }

  /** A part of a positive total has a share between 0 and 100 percent. */
  lemma ShareBounds(amount: real, total: real)
    requires 0.0 <= amount <= total && total > 0.0
    ensures 0.0 <= ShareOf(amount, total).value <= 100.0
  {
    var v := ShareOf(amount, total).value;
    assert v * total <= 100.0 * total;
  }
}
