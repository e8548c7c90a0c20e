/**
 * The 30-day earnings calendar of user_price_fetcher.py: the window test of
 * lines 74-82 and the stable ascending sort by days left of line 137. Dates
 * are whole day numbers and "today" is a parameter.
 */
module Calendar {
  import opened Wrappers

  /** An upcoming earnings date: its day number and its text as `str(raw_date)` prints it. */
  datatype EarningsDate = EarningsDate(day: int, text: string)

  /** One row of `earnings_calendar_30d`. */
  datatype CalendarEntry = CalendarEntry(ticker: string, date: string, daysLeft: int)

  const CalendarDays: int := 30
  const NoEarningsDate: string := "TBD"

  /** `earnings_date_str`: the date's text, or "TBD" when the provider has no date. */
  function EarningsDateLabel(earnings: Option<EarningsDate>): (r: string)
    ensures earnings.None? ==> r == NoEarningsDate
    ensures earnings.Some? ==> r == earnings.value.text
  {
    match earnings
    case None => NoEarningsDate
    case Some(d) => d.text
  }

  /** `(target_date - today).days`: 0 is today, negative is past. */
  function DaysUntil(target: int, today: int): int
  {
    target - today
  }

  /**
   * The entry an instrument appends to the calendar: one exactly when it has an
   * earnings date between today and 30 days from now, both ends included.
   */
  function CalendarEntryFor(ticker: string, earnings: Option<EarningsDate>, today: int): (r: Option<CalendarEntry>)
    ensures r.Some? <==> earnings.Some? && 0 <= DaysUntil(earnings.value.day, today) <= CalendarDays
    ensures r.Some? ==> r.value.ticker == ticker && r.value.date == earnings.value.text
                        && r.value.daysLeft == DaysUntil(earnings.value.day, today)
  {
    match earnings
    case None => None
    case Some(d) =>
      var daysUntil := DaysUntil(d.day, today);
      if 0 <= daysUntil <= CalendarDays then Some(CalendarEntry(ticker, d.text, daysUntil)) else None
  }

  /** Worked cases: 15 days ahead is listed, 45 days ahead and no date are not. */
  lemma CalendarExamples(today: int)
    ensures CalendarEntryFor("AAPL", Some(EarningsDate(today + 15, "d")), today) == Some(CalendarEntry("AAPL", "d", 15))
    ensures CalendarEntryFor("AAPL", Some(EarningsDate(today + 45, "d")), today) == None
    ensures CalendarEntryFor("AAPL", None, today) == None && EarningsDateLabel(None) == "TBD"
  {
  }

  // ---------------------------------------------------------------------
  // The stable sort of line 137

  predicate SortedByDays(s: seq<CalendarEntry>)
  {
    forall i, j :: 0 <= i < j < |s| ==> s[i].daysLeft <= s[j].daysLeft
  }

  /** The entries with `k` days left, in the order they appear. */
  function WithDays(s: seq<CalendarEntry>, k: int): seq<CalendarEntry>
  {
    if s == [] then []
    else (if s[0].daysLeft == k then [s[0]] else []) + WithDays(s[1..], k)
  }

  /** Insert `e` before the first entry that is due no sooner than it. */
  function InsertByDays(e: CalendarEntry, s: seq<CalendarEntry>): seq<CalendarEntry>
  {
    if s == [] || e.daysLeft <= s[0].daysLeft then [e] + s
    else [s[0]] + InsertByDays(e, s[1..])
  }

  /**
   * `sorted(calendar, key=lambda x: x['days_left'])`: ordered by days left, a
   * permutation of its input, and stable: the entries sharing a number of days
   * left keep their input order.
   */
  function SortByDays(s: seq<CalendarEntry>): (r: seq<CalendarEntry>)
    ensures SortedByDays(r)
    ensures multiset(r) == multiset(s)
    ensures forall k :: WithDays(r, k) == WithDays(s, k)
  {
    if s == [] then []
    else
      var rest := SortByDays(s[1..]);
      var r := InsertByDays(s[0], rest);
      InsertKeepsOrder(s[0], rest);
      InsertAddsEntry(s[0], rest);
      InsertIsStable(s[0], rest);
      assert s == [s[0]] + s[1..];
      assert forall k :: WithDays(r, k) == WithDays(s, k) by {
        forall k
          ensures WithDays(r, k) == WithDays(s, k)
        {
          WithDaysCons(s[0], rest, k);
          WithDaysCons(s[0], s[1..], k);
        }
      }
      r
  }

  lemma WithDaysCons(x: CalendarEntry, t: seq<CalendarEntry>, k: int)
    ensures WithDays([x] + t, k) == (if x.daysLeft == k then [x] else []) + WithDays(t, k)
  {
    assert ([x] + t)[1..] == t;
  }

  lemma {:induction false} InsertAddsEntry(e: CalendarEntry, s: seq<CalendarEntry>)
    ensures multiset(InsertByDays(e, s)) == multiset(s) + multiset{e}
    decreases |s|
  {
    if s != [] && e.daysLeft > s[0].daysLeft {
      InsertAddsEntry(e, s[1..]);
      assert s == [s[0]] + s[1..];
    }
  }

  /** No entry is due sooner than `d` days. */
  predicate DueFrom(s: seq<CalendarEntry>, d: int)
  {
    forall i :: 0 <= i < |s| ==> d <= s[i].daysLeft
  }

  lemma {:induction false} InsertKeepsBound(e: CalendarEntry, s: seq<CalendarEntry>, d: int)
    requires DueFrom(s, d) && d <= e.daysLeft
    ensures DueFrom(InsertByDays(e, s), d)
    decreases |s|
  {
    if s != [] && e.daysLeft > s[0].daysLeft {
      InsertKeepsBound(e, s[1..], d);
    }
  }

  lemma {:induction false} InsertKeepsOrder(e: CalendarEntry, s: seq<CalendarEntry>)
    requires SortedByDays(s)
    ensures SortedByDays(InsertByDays(e, s))
    decreases |s|
  {
    if s != [] && e.daysLeft > s[0].daysLeft {
      var rest := InsertByDays(e, s[1..]);
      InsertKeepsOrder(e, s[1..]);
      InsertKeepsBound(e, s[1..], s[0].daysLeft);
      var r := [s[0]] + rest;
      forall i, j | 0 <= i < j < |r|
        ensures r[i].daysLeft <= r[j].daysLeft
      {
        assert r[j] == rest[j - 1];
        if i > 0 {
          assert r[i] == rest[i - 1];
        }
      }
    }
  }

  lemma {:induction false} InsertIsStable(e: CalendarEntry, s: seq<CalendarEntry>)
    requires SortedByDays(s)
    ensures forall k :: WithDays(InsertByDays(e, s), k) == WithDays([e] + s, k)
    decreases |s|
  {
    if s != [] && e.daysLeft > s[0].daysLeft {
      var rest := InsertByDays(e, s[1..]);
      InsertIsStable(e, s[1..]);
      assert s == [s[0]] + s[1..];
      forall k
        ensures WithDays(InsertByDays(e, s), k) == WithDays([e] + s, k)
      {
        WithDaysCons(s[0], rest, k);
        WithDaysCons(e, s[1..], k);
        WithDaysCons(e, s, k);
        WithDaysCons(s[0], s[1..], k);
      }
    }
  }

  // ---------------------------------------------------------------------
  // A stable sort by days left has only one possible result, so `SortByDays`
  // is the list Python's `sorted` returns.

  lemma {:induction false} WithDaysFirst(s: seq<CalendarEntry>)
    requires s != []
    ensures WithDays(s, s[0].daysLeft) == [s[0]] + WithDays(s[1..], s[0].daysLeft)
  {
  }

  lemma {:induction false} WithDaysOfLater(s: seq<CalendarEntry>, k: int)
    requires SortedByDays(s) && s != [] && k < s[0].daysLeft
    ensures WithDays(s, k) == []
    decreases |s|
  {
    if |s| > 1 {
      WithDaysOfLater(s[1..], k);
    }
  }

  /** Lists that agree per day count and share their head agree per day count on their tails. */
  lemma SameHeadSameTails(a: seq<CalendarEntry>, b: seq<CalendarEntry>)
    requires a != [] && b != [] && a[0] == b[0]
    requires forall k :: WithDays(a, k) == WithDays(b, k)
    ensures forall k :: WithDays(a[1..], k) == WithDays(b[1..], k)
  {
    forall k
      ensures WithDays(a[1..], k) == WithDays(b[1..], k)
    {
      var x := if a[0].daysLeft == k then [a[0]] else [];
      assert WithDays(a, k) == x + WithDays(a[1..], k);
      assert WithDays(b, k) == x + WithDays(b[1..], k);
      assert WithDays(a[1..], k) == WithDays(a, k)[|x|..];
    }
  }

  lemma StableSortIsUnique(a: seq<CalendarEntry>, b: seq<CalendarEntry>)
    requires SortedByDays(a) && SortedByDays(b)
    requires forall k :: WithDays(a, k) == WithDays(b, k)
    ensures a == b
    decreases |a|
  {
    if a == [] || b == [] {
      if a != [] {
        WithDaysFirst(a);
      }
      if b != [] {
        WithDaysFirst(b);
      }
    } else {
      var ka, kb := a[0].daysLeft, b[0].daysLeft;
      WithDaysFirst(a);
      WithDaysFirst(b);
      if ka < kb {
        WithDaysOfLater(b, ka);
      }
      if kb < ka {
        WithDaysOfLater(a, kb);
      }
      assert ka == kb;
      assert a[0] == b[0];
      SameHeadSameTails(a, b);
      StableSortIsUnique(a[1..], b[1..]);
      assert a == [a[0]] + a[1..] && b == [b[0]] + b[1..];
    }
  }

  /** Any list that is ordered by days left and stable with respect to `s` is `SortByDays(s)`. */
  lemma SortByDaysIsTheStableSort(s: seq<CalendarEntry>, t: seq<CalendarEntry>)
    requires SortedByDays(t) && forall k :: WithDays(t, k) == WithDays(s, k)
    ensures t == SortByDays(s)
  {
    StableSortIsUnique(t, SortByDays(s));
  }
}
