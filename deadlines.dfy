/** The Making Tax Digital deadline widget (src/components/dashboard/MTDDeadlineWidget.jsx:4-115, 159-162):
    the two fixed 2025/26 deadline tables, days left until each deadline, the upcoming list, the next
    deadline and its status. `today` is a parameter: a day plus the milliseconds already elapsed in it. */
module Deadlines {
  import opened Wrappers
  import opened Text
  import opened Seqs
  import opened Dates
  import opened Sorting
  import opened Records
  import opened TaxCalendar

  /** One row of a deadline table; `deadline` is the due day. */
  datatype Deadline = Deadline(quarter: string, period: string, deadline: Date, deadlineText: string)

  /** The standard (6 April) schedule's submission deadlines. */
  const StandardDeadlines: seq<Deadline> := [
    Deadline("Q1", "6 Apr 2025 - 5 Jul 2025", Date(2025, 7, 7), "7 August 2025"),
    Deadline("Q2", "6 Jul 2025 - 5 Oct 2025", Date(2025, 10, 7), "7 November 2025"),
    Deadline("Q3", "6 Oct 2025 - 5 Jan 2026", Date(2026, 0, 7), "7 January 2026"),
    Deadline("Q4", "6 Jan 2026 - 5 Apr 2026", Date(2026, 4, 7), "7 May 2026")
  ]

  /** The calendar-year schedule's submission deadlines. */
  const CalendarDeadlines: seq<Deadline> := [
    Deadline("Q1", "1 Jan 2025 - 31 Mar 2025", Date(2025, 4, 7), "7 May 2025"),
    Deadline("Q2", "1 Apr 2025 - 30 Jun 2025", Date(2025, 7, 7), "7 August 2025"),
    Deadline("Q3", "1 Jul 2025 - 30 Sep 2025", Date(2025, 10, 7), "7 November 2025"),
    Deadline("Q4", "1 Oct 2025 - 31 Dec 2025", Date(2026, 1, 7), "7 February 2026")
  ]

  /** `deadlines`: the calendar table when the current business has elected calendar quarters. */
  function Schedule(currentBusiness: Option<Business>): (r: seq<Deadline>)
    ensures r == CalendarDeadlines <==> currentBusiness.Some? && currentBusiness.value.calendarElection
    ensures r == StandardDeadlines || r == CalendarDeadlines
  {
    assert StandardDeadlines != CalendarDeadlines by { assert StandardDeadlines[0] != CalendarDeadlines[0]; }
    if currentBusiness.Some? && currentBusiness.value.calendarElection then CalendarDeadlines else StandardDeadlines
  }

  /** Every row's deadline is a real day. */
  predicate WellFormed(ds: seq<Deadline>) {
    forall i :: 0 <= i < |ds| ==> Valid(ds[i].deadline)
  }

  /** Each table lists Q1 to Q4 in order, on valid days, with strictly increasing deadlines. */
  lemma TablesShape()
    ensures WellFormed(StandardDeadlines) && WellFormed(CalendarDeadlines)
    ensures forall i :: 0 <= i < 4 ==>
      StandardDeadlines[i].quarter == CalendarDeadlines[i].quarter == ["Q1", "Q2", "Q3", "Q4"][i]
    ensures forall i, j :: 0 <= i < j < 4 ==> Before(StandardDeadlines[i].deadline, StandardDeadlines[j].deadline)
    ensures forall i, j :: 0 <= i < j < 4 ==> Before(CalendarDeadlines[i].deadline, CalendarDeadlines[j].deadline)
  {
  }

  // ---- Days until a deadline ----

  const MillisPerDay: int := 86400000

  /** `Math.ceil(x)`. */
  function Ceil(x: real): (c: int)
    ensures c as real >= x && (c - 1) as real < x
  {
    -((-x).Floor)
  }

  /** `Math.ceil((deadline - today) / (1000 * 60 * 60 * 24))`, with `today` taken `msIntoDay`
      milliseconds after the start of its day. */
  function DaysUntil(deadline: Date, today: Date, msIntoDay: int): int
    requires 0 <= deadline.month < 12 && 0 <= today.month < 12
  {
    Ceil(((DayNumber(deadline) - DayNumber(today)) * MillisPerDay - msIntoDay) as real / MillisPerDay as real)
  }

  /** At any time of day, the days left are the whole calendar days between today and the deadline. */
  lemma DaysUntilWholeDays(deadline: Date, today: Date, msIntoDay: int)
    requires 0 <= deadline.month < 12 && 0 <= today.month < 12
    requires 0 <= msIntoDay < MillisPerDay
    ensures DaysUntil(deadline, today, msIntoDay) == DayNumber(deadline) - DayNumber(today)
  {
    var n := DayNumber(deadline) - DayNumber(today);
    var x := (n * MillisPerDay - msIntoDay) as real / MillisPerDay as real;
    assert x == n as real - msIntoDay as real / MillisPerDay as real;
    assert 0.0 <= msIntoDay as real / MillisPerDay as real < 1.0;
    var c := DaysUntil(deadline, today, msIntoDay);
    assert c as real >= x && (c - 1) as real < x;
  }

  /** A later deadline is never fewer days away. */
  lemma DaysUntilMonotone(a: Date, b: Date, today: Date, msIntoDay: int)
    requires Valid(a) && Valid(b) && 0 <= today.month < 12 && 0 <= msIntoDay < MillisPerDay
    ensures OnOrBefore(a, b) <==> DaysUntil(a, today, msIntoDay) <= DaysUntil(b, today, msIntoDay)
  {
    DaysUntilWholeDays(a, today, msIntoDay);
    DaysUntilWholeDays(b, today, msIntoDay);
    DayNumberOrder(a, b);
  }

  // ---- Upcoming and next deadlines ----

  /** A row with its `daysUntil`. */
  datatype Annotated = Annotated(entry: Deadline, daysUntil: int)

  /** `deadlines.map(...)`: every row with its days left. */
  function Annotate(ds: seq<Deadline>, today: Date, msIntoDay: int): (r: seq<Annotated>)
    requires WellFormed(ds) && 0 <= today.month < 12
    ensures |r| == |ds|
    ensures forall i :: 0 <= i < |ds| ==>
      r[i].entry == ds[i] && r[i].daysUntil == DaysUntil(ds[i].deadline, today, msIntoDay)
  {
    seq(|ds|, i requires 0 <= i < |ds| => Annotated(ds[i], DaysUntil(ds[i].deadline, today, msIntoDay)))
  }

  /** Shown: due in the future or at most 30 days past. */
  predicate Shown(a: Annotated) {
    a.daysUntil >= -30
  }

  function DeadlineKey(a: Annotated): Key {
    Day(a.entry.deadline)
  }

  /** `upcomingDeadlines`: the shown rows, earliest deadline first. */
  function Upcoming(ds: seq<Deadline>, today: Date, msIntoDay: int): (r: seq<Annotated>)
    requires WellFormed(ds) && 0 <= today.month < 12
    ensures multiset(r) == multiset(Filter(Annotate(ds, today, msIntoDay), Shown))
    ensures forall i :: 0 <= i < |r| ==> Shown(r[i]) && r[i] in Annotate(ds, today, msIntoDay)
    ensures forall i :: 0 <= i < |ds| && DaysUntil(ds[i].deadline, today, msIntoDay) >= -30 ==>
      Annotate(ds, today, msIntoDay)[i] in r
    ensures forall i, j :: 0 <= i < j < |r| ==> OnOrBefore(r[i].entry.deadline, r[j].entry.deadline)
  {
    var annotated := Annotate(ds, today, msIntoDay);
    var r := SortBy(Filter(annotated, Shown), DeadlineKey, false);
    ShownSorted(annotated, r);
    r
  }

  /** A sorted permutation of the shown rows holds exactly the shown rows, earliest deadline first. */
  lemma ShownSorted(annotated: seq<Annotated>, r: seq<Annotated>)
    requires multiset(r) == multiset(Filter(annotated, Shown)) && SortedBy(r, DeadlineKey, false)
    ensures forall i :: 0 <= i < |r| ==> Shown(r[i]) && r[i] in annotated
    ensures forall i :: 0 <= i < |annotated| && Shown(annotated[i]) ==> annotated[i] in r
    ensures forall i, j :: 0 <= i < j < |r| ==> OnOrBefore(r[i].entry.deadline, r[j].entry.deadline)
  {
    var shown := Filter(annotated, Shown);
    forall i | 0 <= i < |r|
      ensures Shown(r[i]) && r[i] in annotated
    {
      assert r[i] in multiset(shown);
    }
    forall i | 0 <= i < |annotated| && Shown(annotated[i])
      ensures annotated[i] in r
    {
      assert annotated[i] in shown;
      assert annotated[i] in multiset(shown);
    }
    forall i, j | 0 <= i < j < |r|
      ensures OnOrBefore(r[i].entry.deadline, r[j].entry.deadline)
    {
      assert InOrder(DeadlineKey(r[i]), DeadlineKey(r[j]), false);
    }
  }

  /** Index of the first row not yet past its deadline, or `|u|`. */
  function FirstDue(u: seq<Annotated>): (k: nat)
    ensures k <= |u|
    ensures forall j :: 0 <= j < k ==> u[j].daysUntil < 0
    ensures k < |u| ==> u[k].daysUntil >= 0
  {
    if u == [] || u[0].daysUntil >= 0 then 0 else 1 + FirstDue(u[1..])
  }

  /** `nextDeadline`: the first upcoming row with `daysUntil >= 0`, if any. */
  function NextDeadline(u: seq<Annotated>): Option<Annotated> {
    var k := FirstDue(u);
    if k < |u| then Some(u[k]) else None
  }

  /** In rows ordered by deadline, the first due row is no later than any due row. */
  lemma FirstDueEarliest(u: seq<Annotated>, j: int)
    requires forall a, b :: 0 <= a < b < |u| ==> OnOrBefore(u[a].entry.deadline, u[b].entry.deadline)
    requires 0 <= j < |u| && u[j].daysUntil >= 0
    ensures FirstDue(u) <= j && OnOrBefore(u[FirstDue(u)].entry.deadline, u[j].entry.deadline)
  {
  }

  /** The next deadline is the earliest one of the schedule that has not passed. */
  lemma NextIsEarliestDue(ds: seq<Deadline>, today: Date, msIntoDay: int, i: int)
    requires WellFormed(ds) && 0 <= today.month < 12 && 0 <= i < |ds|
    requires DaysUntil(ds[i].deadline, today, msIntoDay) >= 0
    ensures var next := NextDeadline(Upcoming(ds, today, msIntoDay));
      && next.Some? && next.value.daysUntil >= 0 && next.value.entry in ds
      && OnOrBefore(next.value.entry.deadline, ds[i].deadline)
  {
    var annotated := Annotate(ds, today, msIntoDay);
    var u := Upcoming(ds, today, msIntoDay);
    var row := annotated[i];
    assert row.entry == ds[i] && row.daysUntil >= 0;
    assert row in u;
    var j :| 0 <= j < |u| && u[j] == row;
    FirstDueEarliest(u, j);
    var next := u[FirstDue(u)];
    assert next in annotated;
    var m :| 0 <= m < |annotated| && annotated[m] == next;
    assert next.entry == ds[m];
  }

  /** There is no next deadline exactly when every deadline of the schedule has passed. */
  lemma NoNextWhenAllPassed(ds: seq<Deadline>, today: Date, msIntoDay: int)
    requires WellFormed(ds) && 0 <= today.month < 12
    ensures NextDeadline(Upcoming(ds, today, msIntoDay)).None? <==>
      forall i :: 0 <= i < |ds| ==> DaysUntil(ds[i].deadline, today, msIntoDay) < 0
  {
    var u := Upcoming(ds, today, msIntoDay);
    var annotated := Annotate(ds, today, msIntoDay);
    if exists i :: 0 <= i < |ds| && DaysUntil(ds[i].deadline, today, msIntoDay) >= 0 {
      var i :| 0 <= i < |ds| && DaysUntil(ds[i].deadline, today, msIntoDay) >= 0;
      NextIsEarliestDue(ds, today, msIntoDay, i);
    }
  }

  // ---- Status ----

  datatype Status = Overdue | Urgent | Warning | Normal

  /** `getDeadlineStatus`: overdue before the day, urgent within a week, warning within 30 days. */
  function DeadlineStatus(daysUntil: int): (s: Status)
    ensures s == Overdue <==> daysUntil < 0
    ensures s == Urgent <==> 0 <= daysUntil <= 7
    ensures s == Warning <==> 8 <= daysUntil <= 30
    ensures s == Normal <==> daysUntil > 30
  {
    if daysUntil < 0 then Overdue
    else if daysUntil <= 7 then Urgent
    else if daysUntil <= 30 then Warning
    else Normal
  }

  function Severity(s: Status): nat {
    match s
    case Overdue => 3
    case Urgent => 2
    case Warning => 1
    case Normal => 0
  }

  /** Fewer days left never gives a milder status. */
  lemma StatusMonotone(a: int, b: int)
    requires a <= b
    ensures Severity(DeadlineStatus(a)) >= Severity(DeadlineStatus(b))
  {
  }

  /** The widget's own status (that of the next deadline, `'normal'` when there is none) is never
      overdue. */
  lemma WidgetNeverOverdue(ds: seq<Deadline>, today: Date, msIntoDay: int)
    requires WellFormed(ds) && 0 <= today.month < 12
    ensures var next := NextDeadline(Upcoming(ds, today, msIntoDay));
      (if next.Some? then DeadlineStatus(next.value.daysUntil) else Normal) != Overdue
  {
  }

  /** `getStatusText`. */
  function StatusText(daysUntil: int): string {
    if daysUntil < 0 then IntToString(-daysUntil) + " days overdue"
    else if daysUntil == 0 then "Due today"
    else if daysUntil == 1 then "Due tomorrow"
    else IntToString(daysUntil) + " days remaining"
  }

  /** Different day counts never read the same. */
  lemma StatusTextInjective(a: int, b: int)
    requires StatusText(a) == StatusText(b)
    ensures a == b
  {
    SameTextSameForm(a, b);
    if TextForm(a) == 0 {
      OverdueTextInjective(a, b, StatusText(a));
    } else if TextForm(a) == 3 {
      RemainingTextInjective(a, b, StatusText(a));
    }
  }

  /** Equal texts use the same wording. */
  lemma SameTextSameForm(a: int, b: int)
    requires StatusText(a) == StatusText(b)
    ensures TextForm(a) == TextForm(b)
  {
    StatusTextEnd(a);
    StatusTextEnd(b);
  }

  /** Two overdue texts are equal only for equal day counts. */
  lemma OverdueTextInjective(m: int, n: int, s: string)
    requires m < 0 && n < 0 && StatusText(m) == s && StatusText(n) == s
    ensures m == n
  {
    var x, y := IntToString(-m), IntToString(-n);
    assert x + " days overdue" == s == y + " days overdue";
    CountedTextInjective(-m, -n, x, y, " days overdue");
  }

  /** Two "remaining" texts are equal only for equal day counts. */
  lemma RemainingTextInjective(m: int, n: int, s: string)
    requires m > 1 && n > 1 && StatusText(m) == s && StatusText(n) == s
    ensures m == n
  {
    var x, y := IntToString(m), IntToString(n);
    assert x + " days remaining" == s == y + " days remaining";
    CountedTextInjective(m, n, x, y, " days remaining");
  }

  /** A number followed by a fixed wording determines the number. */
  lemma CountedTextInjective(m: int, n: int, x: string, y: string, suffix: string)
    requires x == IntToString(m) && y == IntToString(n) && x + suffix == y + suffix
    ensures m == n
  {
    SuffixCancel(x, y, suffix);
    IntToStringInjective(m, n);
  }

  /** Which of the four wordings `getStatusText` uses for `d`. */
  function TextForm(d: int): nat {
    if d < 0 then 0 else if d == 0 then 1 else if d == 1 then 2 else 3
  }

  /** The last character tells the four forms apart. */
  lemma StatusTextEnd(d: int)
    ensures var s := StatusText(d);
      |s| > 0 && s[|s| - 1] == "eywg"[TextForm(d)]
  {
  }

  lemma SuffixCancel(a: string, b: string, suffix: string)
    requires a + suffix == b + suffix
    ensures a == b
  {
    assert |a| == |b|;
    assert forall k :: 0 <= k < |a| ==> a[k] == (a + suffix)[k] == (b + suffix)[k] == b[k];
  }

  // ---- Current-quarter highlight ----

  /** `currentQuarter?.quarter`: the quarter objects `getTaxYearQuarters` builds have no `quarter`
      property, so it is always `undefined`. */
  function QuarterProperty(currentQuarter: Option<Quarter>): Option<string> {
    None
  }

  /** `find(d => d.quarter === key)`: the first row whose `quarter` equals `key` (`None` stands for
      `undefined`, which no row's string equals). */
  function FindRow(ds: seq<Deadline>, key: Option<string>): (r: Option<Deadline>)
    ensures r.Some? ==> r.value in ds && key == Some(r.value.quarter)
    ensures r.None? <==> forall j :: 0 <= j < |ds| ==> key != Some(ds[j].quarter)
  {
    if ds == [] then None
    else if key == Some(ds[0].quarter) then Some(ds[0])
    else FindRow(ds[1..], key)
  }

  /** `currentQuarterDeadline`: never found, since the key is always `undefined`. */
  function CurrentQuarterDeadline(ds: seq<Deadline>, currentQuarter: Option<Quarter>): (r: Option<Deadline>)
    ensures r == None
  {
    FindRow(ds, QuarterProperty(currentQuarter))
  }

  /** `isCurrentQuarter` for a row of the schedule overview: never true. */
  predicate IsCurrentQuarterRow(d: Deadline, currentQuarter: Option<Quarter>) {
    Some(d.quarter) == QuarterProperty(currentQuarter)
  }

  /** No row of the schedule overview is ever highlighted as the current quarter. */
  lemma NoRowHighlighted(ds: seq<Deadline>, currentQuarter: Option<Quarter>)
    ensures forall j :: 0 <= j < |ds| ==> !IsCurrentQuarterRow(ds[j], currentQuarter)
  {
  }
}
