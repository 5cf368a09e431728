/** The transaction list's derivations (src/components/transactions/TransactionList.jsx:35-110, 252-256):
    the search-and-filter predicate, the sort, the CSV export and the adjustments badge. */
module TransactionList {
  import opened Wrappers
  import opened Text
  import opened Seqs
  import opened Dates
  import opened Sorting
  import opened Records
  import opened Categories
  import opened Ledger

  // ---- Filter ----

  /** The search box matches when the lower-cased term occurs in the lower-cased description, notes or
      property reference (a missing notes or reference is `''`, which only the empty term matches, as the
      description does too). */
  predicate MatchesSearch(t: Transaction, searchTerm: string) {
    var term := ToLower(searchTerm);
    Includes(ToLower(t.description), term) || Includes(ToLower(t.notes), term)
    || Includes(ToLower(t.propertyReference), term)
  }

  /** The filter callback: search, type (`'all'` or equal) and category (`'all'` or equal) all match. */
  predicate Matches(t: Transaction, searchTerm: string, filterType: string, filterCategory: string) {
    && MatchesSearch(t, searchTerm)
    && (filterType == "all" || t.kind == filterType)
    && (filterCategory == "all" || t.category == filterCategory)
  }

  /** `transactions.filter(...)`: the matching transactions in their original order. */
  function FilterTransactions(ts: seq<Transaction>, searchTerm: string, filterType: string, filterCategory: string)
      : (r: seq<Transaction>)
    ensures forall i :: 0 <= i < |r| ==> r[i] in ts && Matches(r[i], searchTerm, filterType, filterCategory)
    ensures forall i :: 0 <= i < |ts| && Matches(ts[i], searchTerm, filterType, filterCategory) ==> ts[i] in r
    ensures IsSubsequence(r, ts)
    ensures CountsFiltered(r, ts, t => Matches(t, searchTerm, filterType, filterCategory))
  {
    FilterIsSubsequence(ts, t => Matches(t, searchTerm, filterType, filterCategory));
    FilterMultiset(ts, t => Matches(t, searchTerm, filterType, filterCategory));
    Filter(ts, t => Matches(t, searchTerm, filterType, filterCategory))
  }

  /** With an empty search and both filters at `'all'`, nothing is filtered out. */
  lemma NoFilterKeepsAll(ts: seq<Transaction>)
    ensures FilterTransactions(ts, "", "all", "all") == ts
  {
    forall i | 0 <= i < |ts|
      ensures Matches(ts[i], "", "all", "all")
    {
      IncludesEmpty(ToLower(ts[i].description));
    }
    FilterAll(ts, t => Matches(t, "", "all", "all"));
  }

  /** Filtering twice with the same settings changes nothing the second time. */
  lemma FilterIdempotent(ts: seq<Transaction>, searchTerm: string, filterType: string, filterCategory: string)
    ensures var r := FilterTransactions(ts, searchTerm, filterType, filterCategory);
      FilterTransactions(r, searchTerm, filterType, filterCategory) == r
  {
    var r := FilterTransactions(ts, searchTerm, filterType, filterCategory);
    FilterAll(r, t => Matches(t, searchTerm, filterType, filterCategory));
  }

  // ---- Sort ----

  /** The `sortBy` choices: date, absolute amount, lower-cased description. */
  datatype SortField = ByDate | ByAmount | ByDescription

  function SortKey(field: SortField, t: Transaction): Key {
    match field
    case ByDate => Day(t.date)
    case ByAmount => Num(Abs(t.amount))
    case ByDescription => Str(ToLower(t.description))
  }

  /** The sorted list: ascending for `'asc'`, descending for any other order. */
  function SortTransactions(ts: seq<Transaction>, field: SortField, sortOrder: string): (r: seq<Transaction>)
    ensures |r| == |ts| && multiset(r) == multiset(ts)
    ensures forall i, j :: 0 <= i < j < |r| ==>
      InOrder(SortKey(field, r[i]), SortKey(field, r[j]), sortOrder != "asc")
  {
    var r := SortBy(ts, t => SortKey(field, t), sortOrder != "asc");
    assert SortedBy(r, t => SortKey(field, t), sortOrder != "asc");
    r
  }

  /** `filteredTransactions`: filtered, then sorted. */
  function Displayed(ts: seq<Transaction>, searchTerm: string, filterType: string, filterCategory: string,
                     field: SortField, sortOrder: string): seq<Transaction> {
    SortTransactions(FilterTransactions(ts, searchTerm, filterType, filterCategory), field, sortOrder)
  }

  /** The displayed list holds exactly the matching transactions, each as often as in the input. */
  lemma DisplayedIsMatching(ts: seq<Transaction>, searchTerm: string, filterType: string, filterCategory: string,
                            field: SortField, sortOrder: string)
    ensures var d := Displayed(ts, searchTerm, filterType, filterCategory, field, sortOrder);
      && (forall t :: t in d <==> t in ts && Matches(t, searchTerm, filterType, filterCategory))
      && multiset(d) == multiset(FilterTransactions(ts, searchTerm, filterType, filterCategory))
  {
    var f := FilterTransactions(ts, searchTerm, filterType, filterCategory);
    var d := Displayed(ts, searchTerm, filterType, filterCategory, field, sortOrder);
    forall t
      ensures t in d <==> t in f
    {
      assert t in d <==> t in multiset(d);
      assert t in f <==> t in multiset(f);
    }
  }

  /** Ordered by date descending (the initial setting), the newest transaction comes first. */
  lemma NewestFirst(ts: seq<Transaction>)
    requires ts != []
    ensures var r := SortTransactions(ts, ByDate, "desc");
      forall i :: 0 <= i < |r| ==> OnOrBefore(r[i].date, r[0].date)
  {
    var r := SortTransactions(ts, ByDate, "desc");
    forall i | 0 < i < |r|
      ensures OnOrBefore(r[i].date, r[0].date)
    {
      assert InOrder(SortKey(ByDate, r[0]), SortKey(ByDate, r[i]), true);
    }
  }

  // ---- CSV ----

  /** A CSV cell: written as is, wrapped in double quotes (without escaping), or a number. */
  datatype Cell = Plain(text: string) | Quoted(text: string) | Number(value: real)

  /** `category?.label || transaction.category`. */
  function CategoryLabel(userType: Option<string>, categoryId: string): (r: string)
    ensures GetCategoryById(userType, categoryId).None? ==> r == categoryId
    ensures GetCategoryById(userType, categoryId).Some? && GetCategoryById(userType, categoryId).value.title != "" ==>
      r == GetCategoryById(userType, categoryId).value.title
  {
    var category := GetCategoryById(userType, categoryId);
    if category.Some? && category.value.title != "" then category.value.title else categoryId
  }

  /** The header line: the seven column names joined by commas. */
  const HeaderLine: string := "Date,Description,Type,Category,Amount,Tax Deductible Amount,Notes"

  /** The deductible column: the deductible amount for an expense, the absolute amount otherwise. */
  function DeductibleColumn(t: Transaction): real {
    if t.kind == "expense" then TaxDeductible(t) else Abs(t.amount)
  }

  /** The cells of one transaction's line, given the text of its category cell. */
  function Row(t: Transaction, categoryText: string): (r: seq<Cell>)
    ensures |r| == 7
    ensures r[4] == Number(Abs(t.amount))
    ensures t.kind == "expense" ==> r[5] == Number(TaxDeductible(t))
    ensures t.kind != "expense" ==> r[5] == Number(Abs(t.amount))
  {
    [Plain(DateText(t.date)), Quoted(t.description), Plain(t.kind), Quoted(categoryText),
     Number(Abs(t.amount)), Number(DeductibleColumn(t)),
     Quoted(t.notes)]
  }

  /** The text of a cell; numbers are written by `showNumber` (JavaScript's number-to-string). */
  function CellText(c: Cell, showNumber: real -> string): string {
    match c
    case Plain(s) => s
    case Quoted(s) => "\"" + s + "\""
    case Number(v) => showNumber(v)
  }

  /** The cells' texts, in order. */
  function CellTexts(cells: seq<Cell>, showNumber: real -> string): (r: seq<string>)
    ensures |r| == |cells| && forall i :: 0 <= i < |cells| ==> r[i] == CellText(cells[i], showNumber)
  {
    seq(|cells|, i requires 0 <= i < |cells| => CellText(cells[i], showNumber))
  }

  /** One transaction's line: its cells' texts joined by commas. */
  function RowLine(userType: Option<string>, t: Transaction, showNumber: real -> string): string {
    Join(CellTexts(Row(t, CategoryLabel(userType, t.category)), showNumber), ",")
  }

  /** `"${s}"`: the text between double quotes, as it is. */
  function Quote(s: string): string {
    "\"" + s + "\""
  }

  /** Joining one more text appends the separator and that text. */
  lemma {:induction false} JoinSnoc(cells: seq<string>, x: string, sep: string)
    requires cells != []
    ensures Join(cells + [x], sep) == Join(cells, sep) + sep + x
  {
    if |cells| > 1 {
      JoinSnoc(cells[1..], x, sep);
      assert (cells + [x])[1..] == cells[1..] + [x];
    }
  }

  /** Seven texts joined by commas. */
  lemma JoinSeven(cells: seq<string>)
    requires |cells| == 7
    ensures Join(cells, ",") == cells[0] + "," + cells[1] + "," + cells[2] + "," + cells[3] + "," + cells[4]
      + "," + cells[5] + "," + cells[6]
  {
    assert cells[..1] == [cells[0]];
    SnocPrefix(cells, 1);
    SnocPrefix(cells, 2);
    SnocPrefix(cells, 3);
    SnocPrefix(cells, 4);
    SnocPrefix(cells, 5);
    SnocPrefix(cells, 6);
    assert cells[..7] == cells;
  }

  lemma SnocPrefix(cells: seq<string>, k: nat)
    requires 0 < k < |cells|
    ensures Join(cells[..k + 1], ",") == Join(cells[..k], ",") + "," + cells[k]
  {
    assert cells[..k + 1] == cells[..k] + [cells[k]];
    JoinSnoc(cells[..k], cells[k], ",");
  }

  /** A transaction's line written out: the date, the quoted description, the type, the quoted category
      label, the amount, the deductible column and the quoted notes, separated by commas. The quoted texts
      go in as they are, so a `"` or `,` inside them is not escaped. */
  lemma RowLineText(userType: Option<string>, t: Transaction, showNumber: real -> string)
    ensures RowLine(userType, t, showNumber)
      == DateText(t.date) + "," + Quote(t.description) + "," + t.kind + "," + Quote(CategoryLabel(userType, t.category))
         + "," + showNumber(Abs(t.amount)) + "," + showNumber(DeductibleColumn(t)) + "," + Quote(t.notes)
  {
    var cells := CellTexts(Row(t, CategoryLabel(userType, t.category)), showNumber);
    JoinSeven(cells);
  }

  /** Moving `b","k,"` across the closing and opening quotes between two quoted texts changes nothing. */
  lemma QuoteShift(a: string, b: string, c: string, k: string)
    ensures Quote(a) + "," + k + "," + Quote(b + "\"," + k + ",\"" + c)
         == Quote(a + "\"," + k + ",\"" + b) + "," + k + "," + Quote(c)
  {
    var q := "\"";
    var s := "," + k + ",";
    assert b + "\"," + k + ",\"" + c == b + q + s + q + c by {
      assert "\"," == q + ",";
      assert ",\"" == "," + q;
    }
    assert a + "\"," + k + ",\"" + b == a + q + s + q + b by {
      assert "\"," == q + ",";
      assert ",\"" == "," + q;
    }
    calc {
      Quote(a) + "," + k + "," + Quote(b + q + s + q + c);
      q + a + q + s + (q + (b + q + s + q + c) + q);
      q + a + q + s + q + b + q + s + q + c + q;
      q + (a + q + s + q + b) + q + s + q + c + q;
      Quote(a + q + s + q + b) + "," + k + "," + Quote(c);
    }
  }

  /** The middle cells of a line, grouped on their own. */
  lemma Regroup(lead: string, x: string, k: string, y: string, n1: string, n2: string, z: string)
    ensures lead + x + "," + k + "," + y + "," + n1 + "," + n2 + "," + z
      == lead + (x + "," + k + "," + y) + ("," + n1 + "," + n2 + "," + z)
  {
  }

  /** The text of a row with its middle cells grouped. */
  lemma RowTextGrouped(t: Transaction, categoryText: string, showNumber: real -> string)
    ensures Join(CellTexts(Row(t, categoryText), showNumber), ",")
      == DateText(t.date) + "," + (Quote(t.description) + "," + t.kind + "," + Quote(categoryText))
         + ("," + showNumber(Abs(t.amount)) + "," + showNumber(DeductibleColumn(t)) + "," + Quote(t.notes))
  {
    JoinSeven(CellTexts(Row(t, categoryText), showNumber));
    Regroup(DateText(t.date) + ",", Quote(t.description), t.kind, Quote(categoryText), showNumber(Abs(t.amount)),
            showNumber(DeductibleColumn(t)), Quote(t.notes));
  }

  /** An id no category has is shown as it is. */
  lemma LabelOfUnknown(userType: Option<string>, id: string)
    requires GetCategoryById(userType, id).None?
    ensures CategoryLabel(userType, id) == id
  {
  }

  /** Moving a `","` sequence between the description and the category leaves the row's text unchanged. */
  lemma ShiftedRowsAgree(t: Transaction, a: string, b: string, c: string, showNumber: real -> string)
    ensures Join(CellTexts(Row(t.(description := a, category := b + "\"," + t.kind + ",\"" + c),
                               b + "\"," + t.kind + ",\"" + c), showNumber), ",")
         == Join(CellTexts(Row(t.(description := a + "\"," + t.kind + ",\"" + b, category := c), c), showNumber), ",")
  {
    var t1 := t.(description := a, category := b + "\"," + t.kind + ",\"" + c);
    var t2 := t.(description := a + "\"," + t.kind + ",\"" + b, category := c);
    assert DeductibleColumn(t1) == DeductibleColumn(t) == DeductibleColumn(t2);
    RowTextGrouped(t1, t1.category, showNumber);
    RowTextGrouped(t2, c, showNumber);
    QuoteShift(a, b, c, t.kind);
  }

  /** Because nothing is escaped, the export cannot always be read back: moving the text
      `b","<type>,"` from the front of an unknown category id to the end of the description leaves the
      line unchanged, although the two transactions differ. */
  lemma QuotesNotEscaped(userType: Option<string>, t: Transaction, a: string, b: string, c: string,
                         showNumber: real -> string)
    requires GetCategoryById(userType, b + "\"," + t.kind + ",\"" + c).None?
    requires GetCategoryById(userType, c).None?
    ensures var t1 := t.(description := a, category := b + "\"," + t.kind + ",\"" + c);
      var t2 := t.(description := a + "\"," + t.kind + ",\"" + b, category := c);
      t1 != t2 && RowLine(userType, t1, showNumber) == RowLine(userType, t2, showNumber)
  {
    LabelOfUnknown(userType, b + "\"," + t.kind + ",\"" + c);
    LabelOfUnknown(userType, c);
    ShiftedRowsAgree(t, a, b, c, showNumber);
    assert |a| < |a + "\"," + t.kind + ",\"" + b|;
  }

  /** The lines of the export: the header, then one line per displayed transaction, in display order. */
  function CsvLines(userType: Option<string>, ts: seq<Transaction>, showNumber: real -> string): (r: seq<string>)
    ensures |r| == |ts| + 1
    ensures r[0] == HeaderLine
    ensures forall i :: 0 <= i < |ts| ==> r[i + 1] == RowLine(userType, ts[i], showNumber)
  {
    var rows := seq(|ts|, i requires 0 <= i < |ts| => RowLine(userType, ts[i], showNumber));
    assert forall i :: 0 <= i < |ts| ==> ([HeaderLine] + rows)[i + 1] == rows[i];
    [HeaderLine] + rows
  }

  /** `csvContent`: the lines joined by newlines. */
  function CsvContent(userType: Option<string>, ts: seq<Transaction>, showNumber: real -> string): string {
    Join(CsvLines(userType, ts, showNumber), "\n")
  }

  lemma {:induction false} JoinStartsWithFirst(cells: seq<string>, sep: string)
    requires cells != []
    ensures StartsWith(Join(cells, sep), cells[0])
  {
  }

  /** The export's first line is exactly the fixed header. */
  lemma CsvHeader(userType: Option<string>, ts: seq<Transaction>, showNumber: real -> string)
    ensures StartsWith(CsvContent(userType, ts, showNumber), HeaderLine)
    ensures ts == [] ==> CsvContent(userType, ts, showNumber) == HeaderLine
  {
    JoinStartsWithFirst(CsvLines(userType, ts, showNumber), "\n");
  }

  /** The deductible column never exceeds the amount column, and neither is negative for a private-use
      percentage of at most 100. */
  lemma RowAmounts(userType: Option<string>, t: Transaction)
    requires t.privateUsePercentage <= 100
    ensures var r := Row(t, CategoryLabel(userType, t.category));
      0.0 <= r[5].value <= r[4].value
  {
  }

  // ---- Badge ----

  /** `hasAdjustments`: an expense with a private-use share or marked disallowable. */
  predicate HasAdjustments(t: Transaction) {
    t.kind == "expense" && (t.privateUsePercentage > 0 || t.isDisallowable)
  }

  /** For a non-zero expense with a percentage of at most 100, the badge shows exactly when the deductible
      amount differs from the full amount. */
  lemma AdjustmentsBadge(t: Transaction)
    requires t.kind == "expense" && t.amount != 0.0 && t.privateUsePercentage <= 100
    ensures HasAdjustments(t) <==> TaxDeductible(t) != Abs(t.amount)
  {
    DeductibleInFull(t);
  }
}
