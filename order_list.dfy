/** src/features/orders/OrderList.tsx: the order list screen. It defaults its
    date filter to the current month, pages through the result ten at a time,
    resets to the first page whenever a filter changes, and colours each order
    by its status. */
module OrderList {
  import opened Wrappers
  import opened Schema
  import opened Text
  import opened Ordering

  // ---------------------------------------------------------------- dates

  /** `${year}-${month}-` with the 1-based month padded to two digits. */
  function MonthPrefix(year: int, month0: int): (r: string)
    requires 0 <= month0 < 12
  {
    IntToString(year) + "-" + PadStart2(NatToString(month0 + 1)) + "-"
  }

  /** formatLocalDate: YYYY-MM-DD from the local year, the 0-based month of
      `getMonth()` and the day of the month, both padded to two digits. */
  function FormatLocalDate(year: int, month0: int, day: int): (r: string)
    requires 0 <= month0 < 12 && 1 <= day <= 31
    ensures r == MonthPrefix(year, month0) + PadStart2(NatToString(day))
  {
    MonthPrefix(year, month0) + PadStart2(NatToString(day))
  }

  /** `String(n).padStart(2, '0')` for n below 100 is its two decimal digits. */
  lemma PaddedIsTwoDigits(n: nat)
    requires n < 100
    ensures PadStart2(NatToString(n)) == [DigitChar(n / 10), DigitChar(n % 10)]
  {
    if n >= 10 {
      assert NatToString(n / 10) == [DigitChar(n / 10)];
    }
  }

  lemma TwoDigitsValue(n: nat)
    requires n < 100
    ensures AllDigits([DigitChar(n / 10), DigitChar(n % 10)])
    ensures DigitsValue([DigitChar(n / 10), DigitChar(n % 10)]) == n
  {
    var t := [DigitChar(n / 10), DigitChar(n % 10)];
    assert t[..1] == [DigitChar(n / 10)];
    assert [DigitChar(n / 10)][..0] == [];
    assert DigitsValue(t[..1]) == n / 10;
    assert t[1] as int - '0' as int == n % 10;
  }

  lemma FourDigits(n: nat)
    requires 1000 <= n <= 9999
    ensures |NatToString(n)| == 4
  {
    assert NatToString(n / 1000) == [DigitChar(n / 1000)];
    assert |NatToString(n / 100)| == 2;
    assert |NatToString(n / 10)| == 3;
  }

  /** For a four-digit year the date reads back: ten characters, dashes at 4
      and 7, and the year, the 1-based month and the day in their fields. */
  lemma FormatReadsBack(year: int, month0: int, day: int)
    requires 1000 <= year <= 9999 && 0 <= month0 < 12 && 1 <= day <= 31
    ensures
      var r := FormatLocalDate(year, month0, day);
      && |r| == 10 && r[4] == '-' && r[7] == '-'
      && AllDigits(r[..4]) && DigitsValue(r[..4]) == year
      && AllDigits(r[5..7]) && DigitsValue(r[5..7]) == month0 + 1
      && AllDigits(r[8..]) && DigitsValue(r[8..]) == day
  {
    var r := FormatLocalDate(year, month0, day);
    FourDigits(year);
    PaddedIsTwoDigits(month0 + 1);
    PaddedIsTwoDigits(day);
    NatToStringRoundTrip(year);
    var y := NatToString(year);
    var m := [DigitChar((month0 + 1) / 10), DigitChar((month0 + 1) % 10)];
    var d := [DigitChar(day / 10), DigitChar(day % 10)];
    assert r == y + "-" + m + "-" + d;
    assert r[..4] == y;
    assert r[5..7] == m;
    assert r[8..] == d;
    TwoDigitsValue(month0 + 1);
    TwoDigitsValue(day);
  }

  predicate IsLeapYear(year: int)
  {
    (year % 4 == 0 && year % 100 != 0) || year % 400 == 0
  }

  /** The day `new Date(year, month + 1, 0)` lands on: the last day of the
      month in the Gregorian calendar. */
  function DaysInMonth(year: int, month0: int): (r: int)
    requires 0 <= month0 < 12
    ensures 28 <= r <= 31
    ensures r == 29 <==> month0 == 1 && IsLeapYear(year)
    ensures r == 28 <==> month0 == 1 && !IsLeapYear(year)
  {
    if month0 == 1 then (if IsLeapYear(year) then 29 else 28)
    else if month0 in {3, 5, 8, 10} then 30
    else 31
  }

  /** The initial date filter: the first and the last day of the month. */
  function DefaultRange(year: int, month0: int): (r: (string, string))
    requires 0 <= month0 < 12
    ensures r.0 == FormatLocalDate(year, month0, 1)
    ensures r.1 == FormatLocalDate(year, month0, DaysInMonth(year, month0))
  {
    (FormatLocalDate(year, month0, 1), FormatLocalDate(year, month0, DaysInMonth(year, month0)))
  }

  lemma {:induction false} LexLeCommonPrefix(p: string, a: string, b: string)
    ensures LexLe(p + a, p + b) <==> LexLe(a, b)
  {
    if p != [] {
      assert (p + a)[1..] == p[1..] + a;
      assert (p + b)[1..] == p[1..] + b;
      LexLeCommonPrefix(p[1..], a, b);
    } else {
      assert p + a == a && p + b == b;
    }
  }

  lemma TwoDigitsLe(a: nat, b: nat)
    requires a < 100 && b < 100
    ensures LexLe(PadStart2(NatToString(a)), PadStart2(NatToString(b))) <==> a <= b
  {
    PaddedIsTwoDigits(a);
    PaddedIsTwoDigits(b);
    var x := PadStart2(NatToString(a));
    var y := PadStart2(NatToString(b));
    assert x[0] as int == '0' as int + a / 10 && x[1] as int == '0' as int + a % 10;
    assert y[0] as int == '0' as int + b / 10 && y[1] as int == '0' as int + b % 10;
    assert x[1..] == [x[1]] && y[1..] == [y[1]];
    assert [x[1]][1..] == [] && [y[1]][1..] == [];
    assert LexLe([x[1]], [y[1]]) <==> x[1] <= y[1];
    assert LexLe(x, y) <==> x[0] < y[0] || (x[0] == y[0] && LexLe(x[1..], y[1..]));
  }

  /** Every day of the month sorts between the two ends of the default range,
      so a filter on the ISO date strings covers the whole month. */
  lemma DefaultRangeCoversMonth(year: int, month0: int, day: int)
    requires 0 <= month0 < 12 && 1 <= day <= DaysInMonth(year, month0)
    ensures LexLe(DefaultRange(year, month0).0, FormatLocalDate(year, month0, day))
    ensures LexLe(FormatLocalDate(year, month0, day), DefaultRange(year, month0).1)
  {
    var p := MonthPrefix(year, month0);
    var last := DaysInMonth(year, month0);
    LexLeCommonPrefix(p, PadStart2(NatToString(1)), PadStart2(NatToString(day)));
    LexLeCommonPrefix(p, PadStart2(NatToString(day)), PadStart2(NatToString(last)));
    TwoDigitsLe(1, day);
    TwoDigitsLe(day, last);
  }

  // ---------------------------------------------------------------- paging

  const PageSize: nat := 10

  /** `Math.ceil(totalCount / 10)`. */
  function TotalPages(count: nat): (r: nat)
    ensures r * PageSize >= count
    ensures r > 0 ==> (r - 1) * PageSize < count
    ensures r == 0 <==> count == 0
  {
    (count + PageSize - 1) / PageSize
  }

  /** "Mostrando a to b": shown only when there is something to show. */
  function ShownRange(page: int, count: nat): (r: Option<(int, int)>)
    ensures r.None? <==> count == 0
    ensures r.Some? ==> r.value.0 == (page - 1) * PageSize + 1
    ensures r.Some? ==> r.value.1 <= count && r.value.1 <= page * PageSize
    ensures r.Some? ==> r.value.1 == count || r.value.1 == page * PageSize
  {
    if count == 0 then None
    else Some(((page - 1) * PageSize + 1, if page * PageSize < count then page * PageSize else count))
  }

  /** On any page the buttons can reach, the range is a non-empty stretch of
      at most ten orders within 1..count. */
  lemma ShownRangeInBounds(page: int, count: nat)
    requires count > 0 && 1 <= page <= TotalPages(count)
    ensures 1 <= ShownRange(page, count).value.0 <= ShownRange(page, count).value.1 <= count
    ensures ShownRange(page, count).value.1 - ShownRange(page, count).value.0 < PageSize
  {
  }

  /** The pager state: the page and the five filters. */
  datatype ListState = ListState(page: int, search: string, startDate: string, endDate: string,
                                 status: string, payment: string)

  datatype ListEvent =
    | SearchChanged(text: string)
    | StartChanged(date: string)
    | EndChanged(date: string)
    | StatusChanged(value: string)
    | PaymentChanged(value: string)
    | PreviousClicked
    | NextClicked

  predicate IsFilterChange(e: ListEvent)
  {
    !e.PreviousClicked? && !e.NextClicked?
  }

  function InitialState(year: int, month0: int): (s: ListState)
    requires 0 <= month0 < 12
    ensures s.page == 1 && s.status == "all" && s.payment == "all" && s.search == ""
    ensures (s.startDate, s.endDate) == DefaultRange(year, month0)
  {
    var range := DefaultRange(year, month0);
    ListState(1, "", range.0, range.1, "all", "all")
  }

  predicate PreviousDisabled(s: ListState, loading: bool)
  {
    s.page == 1 || loading
  }

  predicate NextDisabled(s: ListState, count: nat, loading: bool)
  {
    s.page >= TotalPages(count) || loading
  }

  /** One event: a filter change stores the filter and goes back to page 1;
      the buttons move by one page, clamped by `Math.max`/`Math.min`, and do
      nothing while disabled. */
  function Step(s: ListState, count: nat, loading: bool, e: ListEvent): (r: ListState)
    ensures IsFilterChange(e) ==> r.page == 1
    ensures e.SearchChanged? ==> r == s.(search := e.text, page := 1)
    ensures e.StartChanged? ==> r == s.(startDate := e.date, page := 1)
    ensures e.EndChanged? ==> r == s.(endDate := e.date, page := 1)
    ensures e.StatusChanged? ==> r == s.(status := e.value, page := 1)
    ensures e.PaymentChanged? ==> r == s.(payment := e.value, page := 1)
    ensures e.PreviousClicked? && !PreviousDisabled(s, loading) ==>
      r == s.(page := if s.page - 1 < 1 then 1 else s.page - 1)
    ensures e.NextClicked? && !NextDisabled(s, count, loading) ==>
      r == s.(page := if s.page + 1 < TotalPages(count) then s.page + 1 else TotalPages(count))
    ensures e.PreviousClicked? && PreviousDisabled(s, loading) ==> r == s
    ensures e.NextClicked? && NextDisabled(s, count, loading) ==> r == s
  {
    match e
    case SearchChanged(t) => s.(search := t, page := 1)
    case StartChanged(d) => s.(startDate := d, page := 1)
    case EndChanged(d) => s.(endDate := d, page := 1)
    case StatusChanged(v) => s.(status := v, page := 1)
    case PaymentChanged(v) => s.(payment := v, page := 1)
    case PreviousClicked =>
      if PreviousDisabled(s, loading) then s
      else s.(page := if s.page - 1 < 1 then 1 else s.page - 1)
    case NextClicked =>
      if NextDisabled(s, count, loading) then s
      else s.(page := if s.page + 1 < TotalPages(count) then s.page + 1 else TotalPages(count))
  }

  /** The page is a real page of the result: at least 1, and at most the last
      page when there is one. */
  predicate PageValid(s: ListState, count: nat)
  {
    1 <= s.page && (count > 0 ==> s.page <= TotalPages(count))
  }

  /** Every event keeps the page valid; a filter change makes it valid for
      whatever count the new filter brings. */
  lemma StepKeepsPageValid(s: ListState, count: nat, newCount: nat, loading: bool, e: ListEvent)
    requires PageValid(s, count)
    ensures PageValid(Step(s, count, loading, e), count)
    ensures IsFilterChange(e) ==> PageValid(Step(s, count, loading, e), newCount)
  {
  }

  /** Walking forward from page 1 with Next never passes the last page, and
      every page reached shows a range inside the result. */
  lemma {:induction false} NextWalkStaysInRange(s: ListState, count: nat, clicks: nat)
    requires PageValid(s, count) && count > 0
    ensures PageValid(NextTimes(s, count, clicks), count)
    ensures ShownRange(NextTimes(s, count, clicks).page, count).value.1 <= count
  {
    if clicks > 0 {
      NextWalkStaysInRange(s, count, clicks - 1);
      StepKeepsPageValid(NextTimes(s, count, clicks - 1), count, count, false, NextClicked);
    }
  }

  function NextTimes(s: ListState, count: nat, clicks: nat): ListState
  {
    if clicks == 0 then s else Step(NextTimes(s, count, clicks - 1), count, false, NextClicked)
  }

  // ---------------------------------------------------------------- colours

  datatype Colour = Yellow | Green | Red | Blue | Gray

  /** getStatusColor: `status?.toLowerCase()` against the four known values. */
  function StatusColor(status: Option<string>): (c: Colour)
    ensures status.None? ==> c == Gray
  {
    if status.None? then Gray
    else
      var s := ToLower(status.value);
      if s == "pending" then Yellow
      else if s == "paid" then Green
      else if s == "cancelled" then Red
      else if s == "delivered" then Blue
      else Gray
  }

  lemma ToLowerIdempotent(s: string)
    ensures ToLower(ToLower(s)) == ToLower(s)
  {
  }

  /** The colour does not depend on case, and only an unknown status falls
      back to gray. */
  lemma StatusColorIgnoresCase(s: string)
    ensures StatusColor(Some(s)) == StatusColor(Some(ToLower(s)))
    ensures StatusColor(Some(s)) == Gray <==>
      ToLower(s) != "pending" && ToLower(s) != "paid" && ToLower(s) != "cancelled" && ToLower(s) != "delivered"
  {
    ToLowerIdempotent(s);
  }

  // ---------------------------------------------------------------- the list

  /** What the screen reads from the orders query (useOrders.ts), as written:
      the hook returns a plain array, and the screen takes `.data` and
      `.count` of it, both undefined; so the list is undefined and the count 0. */
  function ListViewAsWritten(result: seq<Order>): (r: (Option<seq<Order>>, nat))
  {
    (None, 0)
  }

  /** As written, however many orders the query returns, the screen shows the
      empty message, no pager, and hands the reconciler no batch (so it
      corrects nothing). */
  lemma AsWrittenShowsNoOrders(result: seq<Order>)
    requires result != []
    ensures ListViewAsWritten(result).0.None?
    ensures ShownRange(1, ListViewAsWritten(result).1).None?
    ensures TotalPages(ListViewAsWritten(result).1) == 0
  {
  }

  /** The evidently intended reading: the list is the array itself and the
      count its length. */
  function ListView(result: seq<Order>): (r: (Option<seq<Order>>, nat))
    ensures r.0 == Some(result) && r.1 == |result|
  {
    (Some(result), |result|)
  }

  /** Read that way, every order the query returns is listed and the pager's
      pages cover them all. */
  lemma ListViewShowsAll(result: seq<Order>)
    requires result != []
    ensures forall o :: o in result ==> o in ListView(result).0.value
    ensures ShownRange(1, ListView(result).1).Some?
    ensures TotalPages(ListView(result).1) * PageSize >= |result|
  {
  }
}
