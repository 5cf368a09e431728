/** The UK tax-year and quarter engine (src/utils/helpers.js:18-115). "Now" is a parameter. */
module TaxCalendar {
  import opened Dates
  import opened Text

  /** `getCurrentTaxYear`: the calendar year in which the current tax year began (tax years begin on 6 April). */
  function CurrentTaxYear(now: Date): (y: int)
    requires Valid(now)
    ensures OnOrBefore(Date(y, 3, 6), now) && Before(now, Date(y + 1, 3, 6))
  {
    if now.month > 3 || (now.month == 3 && now.day >= 6) then now.year else now.year - 1
  }

  /** The tax year is the only year whose 6 April to 5 April span contains `now`. */
  lemma TaxYearUnique(now: Date, y: int)
    requires Valid(now)
    requires OnOrBefore(Date(y, 3, 6), now) && Before(now, Date(y + 1, 3, 6))
    ensures y == CurrentTaxYear(now)
  {
  }

  /** One reporting window: inclusive start and end days, a display label (`title`) and a selection value. */
  datatype Quarter = Quarter(start: Date, end: Date, title: string, value: string)

  /** `Y/YY`, where `YY` is the last two characters of `String(Y + 1)`. */
  function TaxYearText(taxYear: int): string {
    IntToString(taxYear) + "/" + TakeLast2(IntToString(taxYear + 1))
  }

  /** `Q<n> Y/YY` for the quarter with zero-based index `i`. */
  function QuarterLabel(taxYear: int, i: int): string
    requires 0 <= i < 4
  {
    "Q" + [DigitChar(i + 1)] + " " + TaxYearText(taxYear)
  }

  /** `Y-Q<n>`, with `-calendar` appended under the calendar election. */
  function QuarterValue(taxYear: int, calendar: bool, i: int): string
    requires 0 <= i < 4
  {
    IntToString(taxYear) + ValueSuffix(calendar, i)
  }

  /** What follows the year in a quarter's value: `-Q<n>`, then `-calendar` under the election. */
  function ValueSuffix(calendar: bool, i: int): string
    requires 0 <= i < 4
  {
    "-Q" + [DigitChar(i + 1)] + (if calendar then "-calendar" else "")
  }

  /** The day every window of the year starts on: 1 April under the election, 6 April otherwise. */
  function QuarterStart(taxYear: int, calendar: bool): Date {
    if calendar then Date(taxYear, 3, 1) else Date(taxYear, 3, 6)
  }

  /** The last day of window `i`: 30 June, 30 September, 31 December, 31 March under the election;
      5 July, 5 October, 5 January, 5 April otherwise. */
  function QuarterEnd(taxYear: int, calendar: bool, i: int): Date
    requires 0 <= i < 4
  {
    if calendar then [Date(taxYear, 5, 30), Date(taxYear, 8, 30), Date(taxYear, 11, 31), Date(taxYear + 1, 2, 31)][i]
    else [Date(taxYear, 6, 5), Date(taxYear, 9, 5), Date(taxYear + 1, 0, 5), Date(taxYear + 1, 3, 5)][i]
  }

  /** The four windows `getTaxYearQuarters(taxYear, calendar)` returns. */
  function TaxYearQuarters(taxYear: int, calendar: bool): (qs: seq<Quarter>)
    ensures |qs| == 4
  {
    seq(4, i requires 0 <= i < 4 =>
      Quarter(QuarterStart(taxYear, calendar), QuarterEnd(taxYear, calendar, i),
              QuarterLabel(taxYear, i), QuarterValue(taxYear, calendar, i)))
  }

  /** The label spelled out as the template literal `Q<n> ${taxYear}/${yy}` builds it. */
  lemma LabelText(taxYear: int, i: int)
    requires 0 <= i < 4
    ensures QuarterLabel(taxYear, i)
      == ["Q1 ", "Q2 ", "Q3 ", "Q4 "][i] + IntToString(taxYear) + "/" + TakeLast2(IntToString(taxYear + 1))
  {
    var prefix := "Q" + [DigitChar(i + 1)] + " ";
    assert prefix == ["Q1 ", "Q2 ", "Q3 ", "Q4 "][i];
    assert QuarterLabel(taxYear, i) == prefix + TaxYearText(taxYear);
  }

  /** The value spelled out as the template literal `${taxYear}-Q<n>[-calendar]` builds it. */
  lemma ValueText(taxYear: int, calendar: bool, i: int)
    requires 0 <= i < 4
    ensures QuarterValue(taxYear, calendar, i) == IntToString(taxYear) +
      (if calendar then ["-Q1-calendar", "-Q2-calendar", "-Q3-calendar", "-Q4-calendar"][i]
       else ["-Q1", "-Q2", "-Q3", "-Q4"][i])
  {
    var suffixes := if calendar then ["-Q1-calendar", "-Q2-calendar", "-Q3-calendar", "-Q4-calendar"]
                    else ["-Q1", "-Q2", "-Q3", "-Q4"];
    assert ValueSuffix(calendar, i) == suffixes[i];
  }

  /** `getTaxYearQuarters`: pushes the four windows of the chosen schedule in order. */
  method GetTaxYearQuarters(taxYear: int, useCalendarElection: bool) returns (quarters: seq<Quarter>)
    ensures quarters == TaxYearQuarters(taxYear, useCalendarElection)
  {
    var yy := TakeLast2(IntToString(taxYear + 1));
    var y := IntToString(taxYear);
    quarters := [];
    if useCalendarElection {
      quarters := quarters + [Quarter(Date(taxYear, 3, 1), Date(taxYear, 5, 30), "Q1 " + y + "/" + yy, y + "-Q1-calendar")];
      quarters := quarters + [Quarter(Date(taxYear, 3, 1), Date(taxYear, 8, 30), "Q2 " + y + "/" + yy, y + "-Q2-calendar")];
      quarters := quarters + [Quarter(Date(taxYear, 3, 1), Date(taxYear, 11, 31), "Q3 " + y + "/" + yy, y + "-Q3-calendar")];
      quarters := quarters + [Quarter(Date(taxYear, 3, 1), Date(taxYear + 1, 2, 31), "Q4 " + y + "/" + yy, y + "-Q4-calendar")];
    } else {
      quarters := quarters + [Quarter(Date(taxYear, 3, 6), Date(taxYear, 6, 5), "Q1 " + y + "/" + yy, y + "-Q1")];
      quarters := quarters + [Quarter(Date(taxYear, 3, 6), Date(taxYear, 9, 5), "Q2 " + y + "/" + yy, y + "-Q2")];
      quarters := quarters + [Quarter(Date(taxYear, 3, 6), Date(taxYear + 1, 0, 5), "Q3 " + y + "/" + yy, y + "-Q3")];
      quarters := quarters + [Quarter(Date(taxYear, 3, 6), Date(taxYear + 1, 3, 5), "Q4 " + y + "/" + yy, y + "-Q4")];
    }
    LabelText(taxYear, 0);
    LabelText(taxYear, 1);
    LabelText(taxYear, 2);
    LabelText(taxYear, 3);
    ValueText(taxYear, useCalendarElection, 0);
    ValueText(taxYear, useCalendarElection, 1);
    ValueText(taxYear, useCalendarElection, 2);
    ValueText(taxYear, useCalendarElection, 3);
    var qs := TaxYearQuarters(taxYear, useCalendarElection);
    assert quarters[0] == qs[0];
    assert quarters[1] == qs[1];
    assert quarters[2] == qs[2];
    assert quarters[3] == qs[3];
  }

  /** All four windows share one start and each is a span of real days from its start to a later end. */
  lemma QuartersShape(taxYear: int, calendar: bool)
    ensures var qs := TaxYearQuarters(taxYear, calendar);
      forall i :: 0 <= i < 4 ==>
        qs[i].start == QuarterStart(taxYear, calendar) && Valid(qs[i].start) && Valid(qs[i].end)
        && Before(qs[i].start, qs[i].end)
  {
    var qs := TaxYearQuarters(taxYear, calendar);
    forall i | 0 <= i < 4
      ensures qs[i].start == QuarterStart(taxYear, calendar) && Valid(qs[i].start) && Valid(qs[i].end)
        && Before(qs[i].start, qs[i].end)
    {
      QuarterBounds(taxYear, calendar, i);
      WindowShape(taxYear, calendar, i);
    }
  }

  /** Window `i` runs from `QuarterStart` to `QuarterEnd`. */
  lemma QuarterBounds(taxYear: int, calendar: bool, i: int)
    requires 0 <= i < 4
    ensures var q := TaxYearQuarters(taxYear, calendar)[i];
      q.start == QuarterStart(taxYear, calendar) && q.end == QuarterEnd(taxYear, calendar, i)
  {
  }

  lemma WindowShape(taxYear: int, calendar: bool, i: int)
    requires 0 <= i < 4
    ensures var start, end := QuarterStart(taxYear, calendar), QuarterEnd(taxYear, calendar, i);
      Valid(start) && Valid(end) && Before(start, end)
  {
  }

  /** The window ends strictly increase. */
  lemma EndsIncrease(taxYear: int, calendar: bool)
    ensures var qs := TaxYearQuarters(taxYear, calendar);
      forall i, j :: 0 <= i < j < 4 ==> Before(qs[i].end, qs[j].end)
  {
    var qs := TaxYearQuarters(taxYear, calendar);
    forall i, j | 0 <= i < j < 4
      ensures Before(qs[i].end, qs[j].end)
    {
      QuarterBounds(taxYear, calendar, i);
      QuarterBounds(taxYear, calendar, j);
      EndsOrdered(taxYear, calendar, i, j);
    }
  }

  lemma EndsOrdered(taxYear: int, calendar: bool, i: int, j: int)
    requires 0 <= i < j < 4
    ensures Before(QuarterEnd(taxYear, calendar, i), QuarterEnd(taxYear, calendar, j))
  {
  }

  /** The windows are nested, not disjoint: every day in a window is also in each later one. */
  lemma WindowsNested(taxYear: int, calendar: bool, d: Date, i: int, j: int)
    requires 0 <= i <= j < 4
    ensures var qs := TaxYearQuarters(taxYear, calendar);
      Within(d, qs[i].start, qs[i].end) ==> Within(d, qs[j].start, qs[j].end)
  {
    QuarterBounds(taxYear, calendar, i);
    QuarterBounds(taxYear, calendar, j);
    if i < j {
      EndsOrdered(taxYear, calendar, i, j);
    }
  }

  /** The calendar window runs from 1 April to 31 March; the standard window from 6 April to 5 April. */
  lemma FullYearWindow(taxYear: int, calendar: bool)
    ensures var q := TaxYearQuarters(taxYear, calendar)[3];
      q.start == (if calendar then Date(taxYear, 3, 1) else Date(taxYear, 3, 6))
      && q.end == (if calendar then Date(taxYear + 1, 2, 31) else Date(taxYear + 1, 3, 5))
  {
    QuarterBounds(taxYear, calendar, 3);
  }

  /** For a four-digit year, the `YY` of a label is the last two digits of the following year. */
  lemma TaxYearTextDigits(taxYear: int)
    requires taxYear >= 9
    ensures TaxYearText(taxYear) == IntToString(taxYear) + "/" + [DigitChar((taxYear + 1) % 100 / 10), DigitChar((taxYear + 1) % 10)]
  {
    LastTwoDigits(taxYear + 1);
  }

  /** Selection values identify a quarter: equal values mean the same year, schedule and index. */
  lemma QuarterValueInjective(y1: nat, c1: bool, i1: int, y2: nat, c2: bool, i2: int)
    requires 0 <= i1 < 4 && 0 <= i2 < 4
    requires QuarterValue(y1, c1, i1) == QuarterValue(y2, c2, i2)
    ensures y1 == y2 && c1 == c2 && i1 == i2
  {
    var a, b := NatToString(y1), NatToString(y2);
    var v1, v2 := QuarterValue(y1, c1, i1), QuarterValue(y2, c2, i2);
    assert v1[..|a|] == a && v1[|a|] == '-';
    assert v2[..|b|] == b && v2[|b|] == '-';
    assert |a| == |b|;
    assert a == b;
    ParseNatToString(y1);
    ParseNatToString(y2);
    assert v1[|a| + 2] == DigitChar(i1 + 1) && v2[|a| + 2] == DigitChar(i2 + 1);
    assert |v1| == |a| + 3 + (if c1 then 9 else 0);
  }

  /** Index of the first window containing `now`, or `|qs|` when none does. */
  function FirstContaining(qs: seq<Quarter>, now: Date): (k: nat)
    ensures k <= |qs|
    ensures forall j :: 0 <= j < k ==> !Within(now, qs[j].start, qs[j].end)
    ensures k < |qs| ==> Within(now, qs[k].start, qs[k].end)
  {
    if qs == [] then 0
    else if Within(now, qs[0].start, qs[0].end) then 0
    else 1 + FirstContaining(qs[1..], now)
  }

  /** What `getCurrentQuarter` returns: the first window of the current tax year containing `now`,
      or the first window when none does. */
  function CurrentQuarter(now: Date, calendar: bool): Quarter
    requires Valid(now)
  {
    var qs := TaxYearQuarters(CurrentTaxYear(now), calendar);
    var k := FirstContaining(qs, now);
    if k < |qs| then qs[k] else qs[0]
  }

  /** `getCurrentQuarter`: scans the windows in order and returns at the first that contains `now`. */
  method GetCurrentQuarter(now: Date, useCalendarElection: bool) returns (q: Quarter)
    requires Valid(now)
    ensures q == CurrentQuarter(now, useCalendarElection)
    ensures q in TaxYearQuarters(CurrentTaxYear(now), useCalendarElection)
  {
    var taxYear := CurrentTaxYear(now);
    var quarters := GetTaxYearQuarters(taxYear, useCalendarElection);
    var i := 0;
    while i < |quarters|
      invariant 0 <= i <= |quarters|
      invariant forall j :: 0 <= j < i ==> !Within(now, quarters[j].start, quarters[j].end)
    {
      if OnOrBefore(quarters[i].start, now) && OnOrBefore(now, quarters[i].end) {
        assert FirstContaining(quarters, now) == i;
        return quarters[i];
      }
      i := i + 1;
    }
    assert FirstContaining(quarters, now) == |quarters|;
    return quarters[0];
  }

  /** Under the standard schedule the current quarter always contains `now`, and it is the first
      window whose end is not before `now`. */
  lemma {:induction false} StandardQuarterContainsNow(now: Date)
    requires Valid(now)
    ensures var q := CurrentQuarter(now, false);
      var qs := TaxYearQuarters(CurrentTaxYear(now), false);
      && Within(now, q.start, q.end)
      && exists k :: 0 <= k < 4 && q == qs[k] && forall j :: 0 <= j < k ==> Before(qs[j].end, now)
  {
    var y := CurrentTaxYear(now);
    var qs := TaxYearQuarters(y, false);
    assert Within(now, qs[3].start, qs[3].end);
    var k := FirstContaining(qs, now);
    assert k < 4;
    forall j | 0 <= j < k ensures Before(qs[j].end, now) {
      assert !Within(now, qs[j].start, qs[j].end);
    }
  }

  /** Under the calendar election the current quarter contains `now` except on 1 to 5 April, which
      belong to the tax year begun the previous April but fall after that year's 31 March end; those
      days get the previous year's Q1. */
  lemma {:induction false} CalendarQuarterFallback(now: Date)
    requires Valid(now)
    ensures var q := CurrentQuarter(now, true);
      Within(now, q.start, q.end) <==> !(now.month == 3 && now.day <= 5)
    ensures now.month == 3 && now.day <= 5 ==>
      CurrentQuarter(now, true) == TaxYearQuarters(now.year - 1, true)[0]
  {
    var y := CurrentTaxYear(now);
    var qs := TaxYearQuarters(y, true);
    var k := FirstContaining(qs, now);
    if now.month == 3 && now.day <= 5 {
      assert y == now.year - 1;
      assert !Within(now, qs[3].start, qs[3].end);
      forall j | 0 <= j < 4 ensures !Within(now, qs[j].start, qs[j].end) {
        WindowsNested(y, true, now, j, 3);
      }
      assert k == 4;
    } else {
      assert Within(now, qs[3].start, qs[3].end);
    }
  }
}
