/** Quartz calendar days (L, L-n, LW, nW, nL, n#k) and the search for the next time that has one. */
module Quartz {
  import opened RunTypes
  import opened Calendar

  datatype Rule =
    | LastDay(offset: nat)
    | NearestWeekday(day: int)
    | LastWeekday(offset: nat)
    | LastOf(day: int)
    | NthOf(day: int, week: int)

  /** What the parser lets through; days of the week count from 1, Sunday. */
  predicate ValidRule(rule: Rule) {
    match rule
    case LastDay(offset) => offset <= 30
    case NearestWeekday(day) => 1 <= day <= 31
    case LastWeekday(offset) => offset <= 30
    case LastOf(day) => 1 <= day <= 7
    case NthOf(day, week) => 1 <= day <= 7 && 1 <= week <= 5
  }

  function WeekdayIn(m: Month, day: int): int {
    Weekday(MonthStart(m) + day - 1)
  }

  /** nearestWeekday. */
  function Nearest(m: Month, day: int): int {
    var weekday := WeekdayIn(m, day);
    if weekday == 6 then (if day == 1 then day + 2 else day - 1)
    else if weekday == 0 then (if day == DaysIn(m) then day - 2 else day + 1)
    else day
  }

  /** dayInMonth; 0 when the month has no such day. */
  function DayInMonth(rule: Rule, m: Month): int {
    var last := DaysIn(m);
    match rule
    case LastDay(offset) => last - offset
    case NearestWeekday(day) => if day > last then 0 else Nearest(m, day)
    case LastWeekday(offset) => if last - offset < 1 then 0 else Nearest(m, last - offset)
    case LastOf(day) => last - (WeekdayIn(m, last) - (day - 1) + 7) % 7
    case NthOf(day, week) =>
      var d := 1 + ((day - 1) - WeekdayIn(m, 1) + 7) % 7 + (week - 1) * 7;
      if d > last then 0 else d
  }

  // ------------------------------------------------------------- day arithmetic

  predicate Workday(m: Month, day: int) {
    1 <= day <= DaysIn(m) && 1 <= WeekdayIn(m, day) <= 5
  }

  function Distance(a: int, b: int): nat {
    if a <= b then b - a else a - b
  }

  lemma WeekdayShift(m: Month, day: int, shift: int)
    ensures WeekdayIn(m, day + shift) == (WeekdayIn(m, day) + shift) % 7
  {
  }

  /** nW and LW: a Monday to Friday of the same month, with no nearer one in it. */
  lemma NearestIsNearest(m: Month, day: int)
    requires 1 <= day <= DaysIn(m)
    ensures Workday(m, Nearest(m, day))
    ensures forall d :: Workday(m, d) ==> Distance(day, Nearest(m, day)) <= Distance(day, d)
  {
    WeekdayShift(m, day, -1);
    WeekdayShift(m, day, 1);
    WeekdayShift(m, day, 2);
    WeekdayShift(m, day, -2);
    forall d | Workday(m, d) ensures Distance(day, Nearest(m, day)) <= Distance(day, d) {
      WeekdayShift(m, day, d - day);
    }
  }

  /** Two days fall on the same weekday exactly when they are whole weeks apart. */
  lemma WholeWeeks(m: Month, d: int, e: int)
    ensures WeekdayIn(m, d) == WeekdayIn(m, e) <==> (e - d) % 7 == 0
  {
    WeekdayShift(m, d, e - d);
    WholeWeeksApart(WeekdayIn(m, d), e - d);
  }

  lemma WholeWeeksApart(w: int, x: int)
    requires 0 <= w < 7
    ensures (w + x) % 7 == w <==> x % 7 == 0
  {
  }

  lemma StepBack(w: int, x: int)
    requires 0 <= w < 7 && 0 <= x < 7
    ensures 0 <= (w - x + 7) % 7 < 7 && (w - (w - x + 7) % 7) % 7 == x
  {
  }

  /** nL: the last such weekday of the month. */
  lemma LastOfIsLast(m: Month, day: int)
    requires 1 <= day <= 7
    ensures var d := DayInMonth(LastOf(day), m);
            && 1 <= d <= DaysIn(m) && WeekdayIn(m, d) == day - 1
            && (forall e :: d < e <= DaysIn(m) ==> WeekdayIn(m, e) != day - 1)
  {
    hide WeekdayIn;
    var last := DaysIn(m);
    var d := DayInMonth(LastOf(day), m);
    WeekdayRange(m, last);
    StepBack(WeekdayIn(m, last), day - 1);
    WeekdayShift(m, last, d - last);
    forall e | d < e <= last ensures WeekdayIn(m, e) != day - 1 {
      WholeWeeks(m, d, e);
    }
  }

  lemma WeekdayRange(m: Month, day: int)
    ensures 0 <= WeekdayIn(m, day) < 7
  {
  }

  /** How many of the first d days of the month fall on a weekday. */
  ghost function Count(m: Month, weekday: int, d: nat): nat {
    if d == 0 then 0 else Count(m, weekday, d - 1) + if WeekdayIn(m, d) == weekday then 1 else 0
  }

  /** The first day of the month, or after it, on a weekday. */
  function FirstOf(m: Month, weekday: int): int {
    1 + (weekday - WeekdayIn(m, 1) + 7) % 7
  }

  lemma EverySevenDays(m: Month, weekday: int, d: int)
    requires 0 <= weekday < 7
    ensures WeekdayIn(m, d) == weekday <==> (d - FirstOf(m, weekday)) % 7 == 0
  {
    WeekdayShift(m, 1, d - 1);
  }

  lemma {:induction false} CountIs(m: Month, weekday: int, d: nat)
    requires 0 <= weekday < 7
    ensures var first := FirstOf(m, weekday);
            1 <= first <= 7 && Count(m, weekday, d) == if d < first then 0 else (d - first) / 7 + 1
    decreases d
  {
    if d > 0 {
      CountIs(m, weekday, d - 1);
      EverySevenDays(m, weekday, d);
    }
  }

  /** n#k: the k-th such weekday of the month, or 0 exactly when the month has fewer. */
  lemma NthOfIsNth(m: Month, day: int, week: int)
    requires 1 <= day <= 7 && 1 <= week <= 5
    ensures var d := DayInMonth(NthOf(day, week), m);
            && (d == 0 <==> Count(m, day - 1, DaysIn(m)) < week)
            && (d != 0 ==> 1 <= d <= DaysIn(m) && WeekdayIn(m, d) == day - 1 && Count(m, day - 1, d) == week)
  {
    var d := FirstOf(m, day - 1) + (week - 1) * 7;
    EverySevenDays(m, day - 1, d);
    CountIs(m, day - 1, d);
    CountIs(m, day - 1, DaysIn(m));
  }

  // ---------------------------------------------------------- what each rule means

  /** A Monday to Friday of the month with none nearer to the day. */
  ghost predicate NearestWorkday(m: Month, day: int, d: int) {
    Workday(m, d) && forall e :: Workday(m, e) ==> Distance(day, d) <= Distance(day, e)
  }

  /** How many days of the month come after d. */
  ghost function DaysAfter(m: Month, d: int): nat
    decreases DaysIn(m) - d
  {
    if d >= DaysIn(m) then 0 else 1 + DaysAfter(m, d + 1)
  }

  /** The last weekday of its kind. */
  ghost predicate LastSuch(m: Month, weekday: int, d: int) {
    && 1 <= d <= DaysIn(m) && WeekdayIn(m, d) == weekday
    && (forall e :: d < e <= DaysIn(m) ==> WeekdayIn(m, e) != weekday)
  }

  /** The day a rule stands for in a month, or 0 for none, without saying how it is computed. */
  ghost predicate StandsFor(rule: Rule, m: Month, d: int) {
    match rule
    case LastDay(offset) => DaysAfter(m, d) == offset
    case NearestWeekday(day) => if day > DaysIn(m) then d == 0 else NearestWorkday(m, day, d)
    case LastWeekday(offset) =>
      if offset >= DaysIn(m) then d == 0
      else exists e :: 1 <= e <= DaysIn(m) && DaysAfter(m, e) == offset && NearestWorkday(m, e, d)
    case LastOf(day) => LastSuch(m, day - 1, d)
    case NthOf(day, week) =>
      if Count(m, day - 1, DaysIn(m)) < week then d == 0
      else 1 <= d <= DaysIn(m) && WeekdayIn(m, d) == day - 1 && Count(m, day - 1, d) == week
  }

  lemma {:induction false} DaysAfterCount(m: Month, d: int)
    requires d <= DaysIn(m)
    ensures DaysAfter(m, d) == DaysIn(m) - d
    decreases DaysIn(m) - d
  {
    if d < DaysIn(m) { DaysAfterCount(m, d + 1); }
  }

  lemma NearestIsUnique(m: Month, day: int, d: int)
    requires 1 <= day <= DaysIn(m) && NearestWorkday(m, day, d)
    ensures d == Nearest(m, day)
  {
    NearestIsNearest(m, day);
    WeekdayShift(m, day, d - day);
    WeekdayShift(m, day, -1);
    WeekdayShift(m, day, 1);
    WeekdayShift(m, day, -2);
    WeekdayShift(m, day, 2);
  }

  lemma NthIsUnique(m: Month, weekday: int, d: int, e: int)
    requires 0 <= weekday < 7 && 1 <= d && 1 <= e && WeekdayIn(m, d) == weekday == WeekdayIn(m, e)
    requires Count(m, weekday, d) == Count(m, weekday, e)
    ensures d == e
  {
    hide WeekdayIn, Count, FirstOf;
    CountIs(m, weekday, d);
    CountIs(m, weekday, e);
    EverySevenDays(m, weekday, d);
    EverySevenDays(m, weekday, e);
  }

  /** dayInMonth answers the day its rule stands for, and there is no other. */
  lemma DaysAreExact(rule: Rule, m: Month, d: int)
    requires ValidRule(rule) && d <= DaysIn(m)
    ensures StandsFor(rule, m, d) <==> d == DayInMonth(rule, m)
  {
    hide WeekdayIn, Count;
    match rule
    case LastDay(offset) => DaysAfterCount(m, d);
    case NearestWeekday(day) =>
      if day <= DaysIn(m) {
        NearestIsNearest(m, day);
        if NearestWorkday(m, day, d) { NearestIsUnique(m, day, d); }
      }
    case LastWeekday(offset) => if offset < DaysIn(m) { LastWeekdayExact(m, offset, d); }
    case LastOf(day) => LastOfIsLast(m, day);
    case NthOf(day, week) =>
      NthOfIsNth(m, day, week);
      if StandsFor(rule, m, d) && Count(m, day - 1, DaysIn(m)) >= week {
        NthIsUnique(m, day - 1, d, DayInMonth(rule, m));
      }
  }

  lemma LastWeekdayExact(m: Month, offset: nat, d: int)
    requires offset < DaysIn(m)
    ensures StandsFor(LastWeekday(offset), m, d) <==> d == Nearest(m, DaysIn(m) - offset)
  {
    var day := DaysIn(m) - offset;
    DaysAfterCount(m, day);
    NearestIsNearest(m, day);
    if d == Nearest(m, day) {
      assert NearestWorkday(m, day, d);
    }
    if e :| 1 <= e <= DaysIn(m) && DaysAfter(m, e) == offset && NearestWorkday(m, e, d) {
      DaysAfterCount(m, e);
      NearestIsUnique(m, e, d);
    }
  }

  const AUGUST_2026: Month := 2026 * 12 + 7

  /** 15W in August 2026 is Friday the 14th, because the 15th is a Saturday. */
  lemma FifteenthOfAugust()
    ensures WeekdayIn(AUGUST_2026, 15) == 6 && DayInMonth(NearestWeekday(15), AUGUST_2026) == 14
  {
    hide MonthStart, DaysIn;
    August2026();
  }

  /** A day is never past the end of its month, and only L-n with n above 28 can be before its start. */
  lemma DaysAreInTheMonth(rule: Rule, m: Month)
    requires ValidRule(rule)
    ensures DayInMonth(rule, m) <= DaysIn(m)
    ensures DayInMonth(rule, m) < 0 <==> rule.LastDay? && rule.offset > DaysIn(m)
  {
    match rule
    case LastDay(offset) =>
    case NearestWeekday(day) => if day <= DaysIn(m) { NearestIsNearest(m, day); }
    case LastWeekday(offset) => if DaysIn(m) - offset >= 1 { NearestIsNearest(m, DaysIn(m) - offset); }
    case LastOf(day) => LastOfIsLast(m, day);
    case NthOf(day, week) =>
  }

  // ----------------------------------------------------------- day-of-week ranges

  /** The i-th day of the week after start, counting 1 to 7 around. */
  function Cyclic(start: int, i: nat): int {
    (start - 1 + i) % 7 + 1
  }

  lemma CyclicNext(start: int, i: nat)
    ensures 1 <= Cyclic(start, i) <= 7
    ensures Cyclic(start, i + 1) == if Cyclic(start, i) == 7 then 1 else Cyclic(start, i) + 1
  {
  }

  lemma CyclicEnd(start: int, end: int, i: nat)
    requires 1 <= start <= 7 && 1 <= end <= 7 && i <= (end - start) % 7
    ensures Cyclic(start, i) == end <==> i == (end - start) % 7
  {
  }

  /** quartzDayRange: the cyclic interval from start to end. */
  method DayRange(start: int, end: int) returns (values: seq<int>)
    requires 1 <= start <= 7 && 1 <= end <= 7
    ensures |values| == (end - start) % 7 + 1
    ensures forall i :: 0 <= i < |values| ==> values[i] == Cyclic(start, i)
    ensures values[0] == start && values[|values| - 1] == end
  {
    hide Cyclic;
    values := [start];
    var current := start;
    CyclicStart(start);
    CyclicEnd(start, end, 0);
    while current != end
      invariant 1 <= |values| <= (end - start) % 7 + 1
      invariant forall i :: 0 <= i < |values| ==> values[i] == Cyclic(start, i)
      invariant current == Cyclic(start, |values| - 1)
      invariant current == end <==> |values| == (end - start) % 7 + 1
      decreases (end - start) % 7 + 1 - |values|
    {
      CyclicNext(start, |values| - 1);
      CyclicEnd(start, end, |values|);
      current := current + 1;
      if current == 8 {
        current := 1;
      }
      values := values + [current];
    }
  }

  lemma CyclicStart(start: int)
    requires 1 <= start <= 7
    ensures Cyclic(start, 0) == start
  {
  }

  /** One comma-separated item of a day-of-week field, parsed: a range and a step. */
  datatype Item = Item(start: int, end: int, step: int)

  predicate ValidItem(item: Item) {
    1 <= item.start <= 7 && 1 <= item.end <= 7 && 1 <= item.step <= 7
  }

  /** A whole number of steps. */
  predicate OnStep(k: nat, step: int)
    requires step > 0
  {
    k % step == 0
  }

  /** The item selects this day, counted from 0, Sunday: a whole number of steps into its range. */
  predicate Selects(item: Item, day: int)
    requires ValidItem(item)
  {
    exists k: nat :: k <= Width(item) && OnStep(k, item.step) && Cyclic(item.start, k) - 1 == day
  }

  function Width(item: Item): nat {
    (item.end - item.start) % 7
  }

  lemma SelectsOne(item: Item, k: nat)
    requires ValidItem(item) && k <= Width(item) && OnStep(k, item.step)
    ensures Selects(item, Cyclic(item.start, k) - 1)
  {
  }

  lemma SelectedBy(item: Item, day: int) returns (k: nat)
    requires ValidItem(item) && Selects(item, day)
    ensures k <= Width(item) && OnStep(k, item.step) && Cyclic(item.start, k) - 1 == day
  {
    k :| k <= Width(item) && OnStep(k, item.step) && Cyclic(item.start, k) - 1 == day;
  }

  /** The loop over one item's range, step by step. */
  method SelectDays(item: Item) returns (selected: set<int>)
    requires ValidItem(item)
    ensures forall day :: day in selected <==> Selects(item, day)
  {
    hide Cyclic, OnStep, Selects, SelectedUpTo;
    var values := DayRange(item.start, item.end);
    var index := 0;
    selected := {};
    NothingSelected(item);
    while index < |values|
      invariant 0 <= index && OnStep(index, item.step)
      invariant SelectedUpTo(item, selected, index)
    {
      SelectNext(item, selected, index);
      selected := selected + {values[index] - 1};
      index := index + item.step;
    }
    AllSelected(item, selected, index);
  }

  /** The days selected so far are those a whole number of steps below the index reaches. */
  ghost predicate SelectedUpTo(item: Item, selected: set<int>, index: nat)
    requires ValidItem(item)
  {
    && (forall day :: day in selected ==> Selects(item, day))
    && (forall k: nat :: k < index && k <= Width(item) && OnStep(k, item.step) ==>
          Cyclic(item.start, k) - 1 in selected)
  }

  lemma NothingSelected(item: Item)
    requires ValidItem(item)
    ensures OnStep(0, item.step) && SelectedUpTo(item, {}, 0)
  {
    ZeroSteps(item.step);
  }

  lemma SelectNext(item: Item, selected: set<int>, index: nat)
    requires ValidItem(item) && index <= Width(item) && OnStep(index, item.step) && SelectedUpTo(item, selected, index)
    ensures OnStep(index + item.step, item.step)
    ensures SelectedUpTo(item, selected + {Cyclic(item.start, index) - 1}, index + item.step)
  {
    hide Cyclic, OnStep, Selects, Width;
    SelectsOne(item, index);
    NextMultiple(index, item.step);
  }

  lemma AllSelected(item: Item, selected: set<int>, index: nat)
    requires ValidItem(item) && index > Width(item) && SelectedUpTo(item, selected, index)
    ensures forall day :: day in selected <==> Selects(item, day)
  {
    hide Cyclic, OnStep, Selects, Width;
    forall day | Selects(item, day) ensures day in selected {
      var k := SelectedBy(item, day);
    }
  }

  /** normalizeQuartzDayOfWeek on parsed items: the days, counted from 0, that some item selects. */
  method Normalize(items: seq<Item>) returns (selected: set<int>)
    requires forall i :: 0 <= i < |items| ==> ValidItem(items[i])
    ensures forall day :: day in selected <==> exists i :: 0 <= i < |items| && Selects(items[i], day)
  {
    hide Selects;
    selected := {};
    for n := 0 to |items|
      invariant forall day :: day in selected <==> exists i :: 0 <= i < n && Selects(items[i], day)
    {
      var more := SelectDays(items[n]);
      selected := selected + more;
    }
  }

  lemma NextMultiple(index: nat, step: int)
    requires step > 0 && OnStep(index, step)
    ensures OnStep(index + step, step)
    ensures forall k: nat :: index < k < index + step ==> !OnStep(k, step)
  {
    var q := index / step;
    assert index == step * q && index + step == step * (q + 1);
    MultipleOf(index + step, step, q + 1);
    forall k: nat | index < k < index + step ensures !OnStep(k, step) {
      RemainderIs(k, step, q, k - index);
    }
  }

  lemma ZeroSteps(step: int)
    requires step > 0
    ensures OnStep(0, step)
  {
    RemainderIs(0, step, 0, 0);
  }

  lemma MultipleOf(x: nat, step: int, q: int)
    requires step > 0 && x == step * q
    ensures x % step == 0
  {
    RemainderIs(x, step, q, 0);
  }

  lemma RemainderIs(x: int, step: int, q: int, r: int)
    requires step > 0 && 0 <= r < step && x == step * q + r
    ensures x % step == r
  {
    QuotientIs(x, step, q, r);
  }

  // ----------------------------------------------------------------- the search

  /** The parsed second, minute, hour and month fields. */
  datatype Times = Times(seconds: set<int>, minutes: set<int>, hours: set<int>, months: set<int>)

  predicate TimeMatches(f: Times, second: int) {
    var s := second % SECONDS_PER_DAY;
    s % 60 in f.seconds && (s / 60) % 60 in f.minutes && s / 3600 in f.hours
  }

  /** A whole second on that day of a month of the field. */
  predicate Dated(f: Times, dom: int, t: int) {
    && t % Calendar.SECOND == 0 && TimeMatches(f, t / Calendar.SECOND)
    && MonthOfYear(MonthOf(DayOf(t))) + 1 in f.months && DayOfMonth(DayOf(t)) == dom
  }

  /** The whole expression: the rule's day of that month, at one of the times. */
  predicate Matches(rule: Rule, f: Times, t: int) {
    Dated(f, DayInMonth(rule, MonthOf(DayOf(t))), t)
  }

  function LeastSecond(f: Times, dom: int, from: int, to: int): Option<int>
    decreases to - from
  {
    if from >= to then None
    else if Dated(f, dom, from * Calendar.SECOND) then Some(from * Calendar.SECOND)
    else LeastSecond(f, dom, from + 1, to)
  }

  /** The cron library looks five years ahead. */
  const HORIZON: int := 5 * 366 * SECONDS_PER_DAY

  /** The cron library's Next for a plain day of the month: the least match strictly after t. */
  function CronNext(f: Times, dom: int, t: int): Option<int> {
    LeastSecond(f, dom, t / Calendar.SECOND + 1, t / Calendar.SECOND + 1 + HORIZON)
  }

  lemma {:induction false} LeastSecondIsLeast(f: Times, dom: int, from: int, to: int)
    ensures match LeastSecond(f, dom, from, to)
            case Some(t) =>
              && from * Calendar.SECOND <= t < to * Calendar.SECOND && Dated(f, dom, t)
              && (forall u :: from * Calendar.SECOND <= u < t ==> !Dated(f, dom, u))
            case None => (forall u :: from * Calendar.SECOND <= u < to * Calendar.SECOND ==> !Dated(f, dom, u))
    decreases (to - from)
  {
    if from < to && !Dated(f, dom, from * Calendar.SECOND) {
      LeastSecondIsLeast(f, dom, from + 1, to);
      forall u | from * Calendar.SECOND <= u < (from + 1) * Calendar.SECOND ensures !Dated(f, dom, u) {
        if u != from * Calendar.SECOND { NothingWithinASecond(f, dom, from, u); }
      }
    }
  }

  lemma CronNextIsLeast(f: Times, dom: int, t: int)
    ensures match CronNext(f, dom, t)
            case Some(c) => c > t && Dated(f, dom, c) && (forall u :: t < u < c ==> !Dated(f, dom, u))
            case None => forall u :: t < u <= t + HORIZON * Calendar.SECOND ==> !Dated(f, dom, u)
  {
    hide Dated, LeastSecond;
    var from := t / Calendar.SECOND + 1;
    LeastSecondIsLeast(f, dom, from, from + HORIZON);
    forall u | t < u < from * Calendar.SECOND ensures !Dated(f, dom, u) {
      NothingWithinASecond(f, dom, from - 1, u);
    }
  }

  lemma NothingWithinASecond(f: Times, dom: int, second: int, u: int)
    requires second * Calendar.SECOND < u < (second + 1) * Calendar.SECOND
    ensures !Dated(f, dom, u)
  {
    RemainderIs(u, Calendar.SECOND, second, u - second * Calendar.SECOND);
  }

  /** The first nanosecond of a month. */
  function MonthBegins(m: Month): int {
    MonthStart(m) * DAY
  }

  lemma InstantInMonth(t: int, m: Month)
    requires MonthBegins(m) <= t < MonthBegins(m + 1)
    ensures MonthOf(DayOf(t)) == m
  {
    DayBounds(t, MonthStart(m), MonthStart(m + 1));
    MonthUnique(DayOf(t), m, MonthOf(DayOf(t)));
  }

  lemma DayBounds(t: int, low: int, high: int)
    ensures low * DAY <= t <==> low <= DayOf(t)
    ensures t < high * DAY <==> DayOf(t) < high
  {
  }

  lemma MonthFits(m: Month)
    ensures MonthBegins(m) < MonthBegins(m + 1) <= MonthBegins(m) - 1 + HORIZON * Calendar.SECOND
  {
    MonthStep(m);
    DaysFit(MonthStart(m), MonthStart(m + 1));
  }

  lemma DaysFit(a: int, b: int)
    requires a < b <= a + 31
    ensures a * DAY < b * DAY <= a * DAY - 1 + HORIZON * Calendar.SECOND
  {
  }

  /** No match lies strictly between the two. */
  ghost predicate NoneBetween(rule: Rule, f: Times, low: int, high: int) {
    forall u :: low < u < high ==> !Matches(rule, f, u)
  }

  /** Where the search starts in a month: after the given instant, or just before the month begins. */
  predicate StartsIn(m: Month, searchAfter: int) {
    MonthBegins(m) - 1 <= searchAfter < MonthBegins(m + 1)
  }

  /** In one month the rule is a plain day of the month. */
  lemma MatchesInMonth(rule: Rule, f: Times, m: Month, u: int)
    requires MonthBegins(m) <= u < MonthBegins(m + 1)
    ensures Matches(rule, f, u) <==> Dated(f, DayInMonth(rule, m), u)
  {
    InstantInMonth(u, m);
  }

  lemma FoundInMonth(rule: Rule, f: Times, m: Month, searchAfter: int, c: int)
    requires StartsIn(m, searchAfter) && CronNext(f, DayInMonth(rule, m), searchAfter) == Some(c)
    requires c < MonthBegins(m + 1)
    ensures c > searchAfter && Matches(rule, f, c) && NoneBetween(rule, f, searchAfter, c)
  {
    CronNextIsLeast(f, DayInMonth(rule, m), searchAfter);
    MatchesInMonth(rule, f, m, c);
    forall u | searchAfter < u < c ensures !Matches(rule, f, u) {
      MatchesInMonth(rule, f, m, u);
    }
  }

  lemma NotInMonth(rule: Rule, f: Times, m: Month, searchAfter: int)
    requires StartsIn(m, searchAfter)
    requires var c := CronNext(f, DayInMonth(rule, m), searchAfter); c.None? || c.value >= MonthBegins(m + 1)
    ensures NoneBetween(rule, f, searchAfter, MonthBegins(m + 1))
  {
    MonthFits(m);
    CronNextIsLeast(f, DayInMonth(rule, m), searchAfter);
    forall u | searchAfter < u < MonthBegins(m + 1) ensures !Matches(rule, f, u) {
      MatchesInMonth(rule, f, m, u);
    }
  }

  /** A month without the day has no match. */
  lemma NoDayNoMatch(rule: Rule, f: Times, m: Month, searchAfter: int)
    requires StartsIn(m, searchAfter) && DayInMonth(rule, m) <= 0
    ensures NoneBetween(rule, f, searchAfter, MonthBegins(m + 1))
  {
    forall u | searchAfter < u < MonthBegins(m + 1) ensures !Matches(rule, f, u) {
      InstantInMonth(u, m);
    }
  }

  /** The code compares year, month and day; a match in this month is on this day, and one elsewhere is not. */
  lemma SameDate(rule: Rule, f: Times, m: Month, searchAfter: int, c: int)
    requires ValidRule(rule) && DayInMonth(rule, m) > 0
    requires StartsIn(m, searchAfter) && CronNext(f, DayInMonth(rule, m), searchAfter) == Some(c)
    ensures DayOf(c) == MonthStart(m) + DayInMonth(rule, m) - 1 <==> c < MonthBegins(m + 1)
  {
    var day := DayInMonth(rule, m);
    DaysAreInTheMonth(rule, m);
    MonthStep(m);
    CronNextIsLeast(f, day, searchAfter);
    DayBounds(c, MonthStart(m), MonthStart(m + 1));
    if c < MonthBegins(m + 1) {
      InstantInMonth(c, m);
    }
  }

  const MONTHS_SEARCHED := 1200

  /** A month whose day would be negative, which the cron parser rejects. */
  predicate Rejected(rule: Rule, m: Month) {
    DayInMonth(rule, m) < 0
  }

  /** The search gets to this month: everything before it has neither a match nor a rejected day. */
  ghost predicate Reaches(rule: Rule, f: Times, after: int, first: Month, m: Month) {
    NoneBetween(rule, f, after, MonthBegins(m)) && forall k :: first <= k < m ==> !Rejected(rule, k)
  }

  lemma NoneJoined(rule: Rule, f: Times, low: int, mid: int, high: int)
    requires NoneBetween(rule, f, low, mid + 1) && NoneBetween(rule, f, mid, high)
    ensures NoneBetween(rule, f, low, high)
  {
  }

  /**
   What the search answers: the least matching instant strictly after `after`; a parse
   error when it gets to a month whose day is negative; and no match when the 1200
   months have neither.
   */
  ghost predicate Answers(rule: Rule, f: Times, after: int, r: Result<int>) {
    var first := MonthOf(DayOf(after));
    match r
    case Ok(t) =>
      && t > after && Matches(rule, f, t) && NoneBetween(rule, f, after, t)
      && (forall k :: first <= k <= MonthOf(DayOf(t)) ==> !Rejected(rule, k))
    case Err(InvalidSchedule) =>
      exists m :: first <= m < first + MONTHS_SEARCHED && Rejected(rule, m) && Reaches(rule, f, after, first, m)
    case Err(_) => Reaches(rule, f, after, first, first + MONTHS_SEARCHED)
  }

  lemma AnswersFound(rule: Rule, f: Times, after: int, m: Month, searchAfter: int, c: int)
    requires StartsIn(m, searchAfter) && after <= searchAfter && NoneBetween(rule, f, after, searchAfter + 1)
    requires forall k :: MonthOf(DayOf(after)) <= k <= m ==> !Rejected(rule, k)
    requires CronNext(f, DayInMonth(rule, m), searchAfter) == Some(c) && c < MonthBegins(m + 1)
    ensures Answers(rule, f, after, Ok(c))
  {
    hide CronNext, Matches;
    FoundInMonth(rule, f, m, searchAfter, c);
    NoneJoined(rule, f, after, searchAfter, c);
    FoundMonth(m, searchAfter, c);
  }

  lemma AnswersRejected(rule: Rule, f: Times, after: int, first: Month, m: Month, searchAfter: int)
    requires first == MonthOf(DayOf(after)) && first <= m < first + MONTHS_SEARCHED && Rejected(rule, m)
    requires NoneBetween(rule, f, after, searchAfter + 1) && StartsIn(m, searchAfter)
    requires forall k :: first <= k < m ==> !Rejected(rule, k)
    ensures Answers(rule, f, after, Err(InvalidSchedule))
  {
    assert Reaches(rule, f, after, first, m);
  }

  lemma AnswersNone(rule: Rule, f: Times, after: int, first: Month, m: Month, searchAfter: int)
    requires first == MonthOf(DayOf(after)) && m == first + MONTHS_SEARCHED
    requires NoneBetween(rule, f, after, searchAfter + 1) && StartsIn(m, searchAfter)
    requires forall k :: first <= k < m ==> !Rejected(rule, k)
    ensures Answers(rule, f, after, Err(NotFound))
  {
  }

  /** nextQuartzCalendar. */
  method Next(rule: Rule, f: Times, after: int) returns (r: Result<int>)
    requires ValidRule(rule)
    ensures Answers(rule, f, after, r)
  {
    hide Answers, Matches, CronNext, NoneBetween, MonthStart;
    var m, searchAfter, checked := MonthOf(DayOf(after)), after, 0;
    ghost var first := m;
    AfterStarts(after, m);
    NoneAtAll(rule, f, after);
    while checked < MONTHS_SEARCHED
      invariant 0 <= checked <= MONTHS_SEARCHED && m == first + checked
      invariant StartsIn(m, searchAfter) && after <= searchAfter
      invariant NoneBetween(rule, f, after, searchAfter + 1) && (forall k :: first <= k < m ==> !Rejected(rule, k))
    {
      var day := DayInMonth(rule, m);
      if day != 0 {
        if day < 0 {
          AnswersRejected(rule, f, after, first, m, searchAfter);
          return Err(InvalidSchedule);
        }
        var candidate := CronNext(f, day, searchAfter);
        if candidate.Some? {
          SameDate(rule, f, m, searchAfter, candidate.value);
        }
        if candidate.Some? && DayOf(candidate.value) == MonthStart(m) + day - 1 {
          AnswersFound(rule, f, after, m, searchAfter, candidate.value);
          return Ok(candidate.value);
        }
        NotInMonth(rule, f, m, searchAfter);
      } else {
        NoDayNoMatch(rule, f, m, searchAfter);
      }
      NoneJoined(rule, f, after, searchAfter, MonthBegins(m + 1));
      MonthFits(m);
      MonthFits(m + 1);
      m := m + 1;
      searchAfter := MonthBegins(m) - 1;
      checked := checked + 1;
    }
    AnswersNone(rule, f, after, first, m, searchAfter);
    r := Err(NotFound);
  }

  /** If the least match lies within the months searched and no month up to it is rejected, it is the answer. */
  lemma LeastMatchIsFound(rule: Rule, f: Times, after: int, t: int, r: Result<int>)
    requires Answers(rule, f, after, r)
    requires t > after && Matches(rule, f, t) && NoneBetween(rule, f, after, t)
    requires MonthOf(DayOf(t)) < MonthOf(DayOf(after)) + MONTHS_SEARCHED
    requires forall k :: MonthOf(DayOf(after)) <= k <= MonthOf(DayOf(t)) ==> !Rejected(rule, k)
    ensures r == Ok(t)
  {
    hide Matches, MonthStart, Rejected, DayOf;
    var first, last := MonthOf(DayOf(after)), MonthOf(DayOf(t));
    BeforeNextMonth(t);
    match r
    case Ok(_) =>
    case Err(InvalidSchedule) =>
      var m :| first <= m < first + MONTHS_SEARCHED && Rejected(rule, m) && Reaches(rule, f, after, first, m);
      NotBefore(t, last, m);
    case Err(_) => NotBefore(t, last, first + MONTHS_SEARCHED);
  }

  lemma BeforeNextMonth(t: int)
    ensures MonthBegins(MonthOf(DayOf(t))) <= t < MonthBegins(MonthOf(DayOf(t)) + 1)
  {
    hide MonthStart;
    var m := MonthOf(DayOf(t));
    DayBounds(t, MonthStart(m), MonthStart(m + 1));
  }

  lemma NotBefore(t: int, last: Month, m: Month)
    requires t < MonthBegins(last + 1) && last < m
    ensures t < MonthBegins(m)
  {
    MonthsAscend(last + 1, m);
  }

  /** Up to L-28 no month is rejected, so the search fails only when there is nothing to find. */
  lemma SmallOffsetsAreNeverRejected(rule: Rule, m: Month)
    requires ValidRule(rule) && (rule.LastDay? ==> rule.offset <= 28)
    ensures !Rejected(rule, m)
  {
    DaysAreInTheMonth(rule, m);
  }

  /** A February with 28 days. */
  predicate ShortFebruary(m: Month) {
    MonthOfYear(m) == 1 && !Leap(YearOf(m))
  }

  const MARCH_ONLY: Times := Times({0}, {0}, {0}, {3})

  /** Beyond that a month can be rejected: such a February has no day L-29 or L-30. */
  lemma FebruaryIsRejected(feb: Month)
    requires ShortFebruary(feb)
    ensures Rejected(LastDay(29), feb)
  {
  }

  lemma SecondOfMarchMatches(feb: Month)
    requires ShortFebruary(feb)
    ensures Matches(LastDay(29), MARCH_ONLY, MonthBegins(feb + 1) + DAY)
  {
    hide MonthStart, MonthOf, TimeMatches, Leap;
    var t := MonthBegins(feb + 1) + DAY;
    assert MonthOfYear(feb + 1) == 2;
    MonthStep(feb + 1);
    InstantInMonth(t, feb + 1);
    DayBounds(t, MonthStart(feb + 1) + 1, MonthStart(feb + 1) + 2);
    MidnightMatches(MonthStart(feb + 1) + 1);
  }

  lemma MidnightMatches(day: int)
    ensures (day * DAY) % Calendar.SECOND == 0 && TimeMatches(MARCH_ONLY, (day * DAY) / Calendar.SECOND)
  {
    var s := day * SECONDS_PER_DAY;
    assert day * DAY == s * Calendar.SECOND;
    RemainderIs(day * DAY, Calendar.SECOND, s, 0);
    QuotientIs(day * DAY, Calendar.SECOND, s, 0);
    RemainderIs(s, SECONDS_PER_DAY, day, 0);
  }

  /**
   Then the answer can be wrong, in three years out of four: asked on 1 February for
   L-29 of March, the search fails on February's negative day, although 2 March matches
   and lies within the months searched.
   */
  lemma LargeOffsetsCanFailForNothing(feb: Month, r: Result<int>)
    requires ShortFebruary(feb)
    requires Answers(LastDay(29), MARCH_ONLY, MonthBegins(feb), r)
    ensures r == Err(InvalidSchedule)
    ensures Matches(LastDay(29), MARCH_ONLY, MonthBegins(feb + 1) + DAY)
  {
    hide Matches, MonthStart, Rejected, DayOf;
    var after := MonthBegins(feb);
    SecondOfMarchMatches(feb);
    FebruaryIsRejected(feb);
    MonthFits(feb);
    InstantInMonth(after, feb);
    if r.Ok? {
      FoundLater(after, r.value);
    }
  }

  lemma FoundLater(after: int, t: int)
    requires after <= t
    ensures MonthOf(DayOf(after)) <= MonthOf(DayOf(t))
  {
    hide MonthStart, DayOf;
    var m, n := MonthOf(DayOf(after)), MonthOf(DayOf(t));
    BeforeNextMonth(after);
    BeforeNextMonth(t);
    if n < m {
      NotBefore(t, n, m);
    }
  }

  lemma AfterStarts(after: int, m: Month)
    requires InMonth(DayOf(after), m)
    ensures StartsIn(m, after)
  {
    DayBounds(after, MonthStart(m), MonthStart(m + 1));
  }

  lemma NoneAtAll(rule: Rule, f: Times, after: int)
    ensures NoneBetween(rule, f, after, after + 1)
  {
  }

  lemma FoundMonth(m: Month, searchAfter: int, c: int)
    requires StartsIn(m, searchAfter) && searchAfter < c < MonthBegins(m + 1)
    ensures MonthOf(DayOf(c)) == m
  {
    InstantInMonth(c, m);
  }

  // ---------------------------------------------------------------- a dated match

  /** 14 August 2026, 12:34:56, in nanoseconds since the first day of year 1. */
  const THAT_FRIDAY: int := 739_841 * DAY + (12 * 3600 + 34 * 60 + 56) * Calendar.SECOND

  /** What the fields mean, on one date: 56 34 12 15W 8 fires on Friday 14 August 2026 at 12:34:56. */
  lemma FiresThatFriday()
    ensures Matches(NearestWeekday(15), Times({56}, {34}, {12}, {8}), THAT_FRIDAY)
  {
    August2026();
    FifteenthOfAugust();
    hide MonthStart, DayInMonth, MonthOf;
    MonthStep(AUGUST_2026);
    DayBounds(THAT_FRIDAY, 739_841, 739_842);
    InstantInMonth(THAT_FRIDAY, AUGUST_2026);
    SecondOfDay(739_841, 12 * 3600 + 34 * 60 + 56);
  }

  lemma SecondOfDay(day: int, s: int)
    requires 0 <= s < SECONDS_PER_DAY
    ensures var t := day * DAY + s * Calendar.SECOND;
            t % Calendar.SECOND == 0 && (t / Calendar.SECOND) % SECONDS_PER_DAY == s
  {
    var whole := day * SECONDS_PER_DAY + s;
    assert day * DAY + s * Calendar.SECOND == whole * Calendar.SECOND;
    RemainderIs(whole * Calendar.SECOND, Calendar.SECOND, whole, 0);
    QuotientIs(whole * Calendar.SECOND, Calendar.SECOND, whole, 0);
    RemainderIs(whole, SECONDS_PER_DAY, day, s);
  }
}
