/** The selection a tier's query makes: the SQL WHERE clause as a predicate over
    one joined row (an order, its active membership, the notice meta) and today's date,
    and the query as a filter over the rows it ranges over. */
module Eligibility {
  import opened Common
  import opened Notices

  /** mu.cycle_period; `Unknown` is any other value, for which the CASE yields NULL. */
  datatype Period = Day | Week | Month | Year | Unknown

  /** One order joined with its user's membership. `active` is false when the join
      on mu.status = 'active' finds no membership, leaving the mu columns NULL. */
  datatype Candidate = Candidate(
    user: int,
    timestamp: int,
    active: bool,
    cycleNumber: int,
    cyclePeriod: Period)

  /** um.meta_value IS NULL OR DATE_ADD(um.meta_value, INTERVAL days DAY) <= 'today 23:59:59',
      with the meta value a date at 00:00:00. */
  function NoticeDue(meta: Option<int>, days: int, today: int): (due: bool)
    ensures due <==> meta.None? || meta.value + days <= today
  {
    meta.None? || DayStart(meta.value + days) <= DayEnd(today)
  }

  /** DATE_SUB(day, INTERVAL n <period>) on a day number; None for an unknown period. */
  function CycleBack(period: Period, n: int, day: int, cal: Calendar): (back: Option<int>)
    ensures back.None? <==> period == Unknown
    ensures period == Day ==> back == Some(day - n)
    ensures period == Week ==> back == Some(day - 7 * n)
  {
    match period
    case Day => Some(day - n)
    case Week => Some(day - 7 * n)
    case Month => Some(cal.monthsBack(day, n))
    case Year => Some(cal.yearsBack(day, n))
    case Unknown => None
  }

  /** mo.timestamp BETWEEN DATE_SUB('today 00:00:00', cycle)
                       AND DATE_ADD(DATE_SUB('today 23:59:59', cycle), INTERVAL days DAY). */
  function InWindow(ts: int, period: Period, n: int, today: int, days: int, cal: Calendar): bool {
    match CycleBack(period, n, today, cal)
    case None => false
    case Some(back) => DayStart(back) <= ts <= DayEnd(back) + days * SecondsPerDay
  }

  /** The WHERE clause of one tier's query for one joined row, stated in whole days:
      an active recurring membership, a notice that is absent or at least `days`
      days old, a known cycle period, and an order dated from one cycle before
      today through `days` days after that. */
  function Eligible(e: Candidate, meta: Option<int>, days: int, today: int, cal: Calendar): (ok: bool)
    ensures ok <==>
      && e.active
      && e.cycleNumber > 0
      && (meta.None? || meta.value + days <= today)
      && e.cyclePeriod != Unknown
      && CycleBack(e.cyclePeriod, e.cycleNumber, today, cal).value <= DayOf(e.timestamp)
      && DayOf(e.timestamp) <= CycleBack(e.cyclePeriod, e.cycleNumber, today, cal).value + days
  {
    var window :=
      if e.cyclePeriod == Unknown then InWindow(e.timestamp, e.cyclePeriod, e.cycleNumber, today, days, cal)
      else (WindowIsWholeDays(e.timestamp, e.cyclePeriod, e.cycleNumber, today, days, cal);
            InWindow(e.timestamp, e.cyclePeriod, e.cycleNumber, today, days, cal));
    e.active && e.cycleNumber > 0 && NoticeDue(meta, days, today) && window
  }

  /** The result set of one tier's query, in the order the rows come, with the
      notice meta joined from the ledger as it stands when the query runs. */
  function Select(rows: seq<Candidate>, l: Ledger, days: int, today: int, cal: Calendar): (found: seq<Candidate>)
    ensures forall e :: e in found <==> e in rows && Eligible(e, Lookup(l, e.user, days), days, today, cal)
    ensures |found| <= |rows|
  {
    if rows == [] then []
    else
      var rest := Select(rows[1..], l, days, today, cal);
      assert forall e :: e in rows <==> e == rows[0] || e in rows[1..];
      if Eligible(rows[0], Lookup(l, rows[0].user, days), days, today, cal) then [rows[0]] + rest else rest
  }

  /** Whatever the period, the window covers exactly the whole days from one cycle
      before today through `days` days after that. */
  lemma WindowIsWholeDays(ts: int, period: Period, n: int, today: int, days: int, cal: Calendar)
    requires period != Unknown
    ensures var back := CycleBack(period, n, today, cal).value;
      InWindow(ts, period, n, today, days, cal) <==> back <= DayOf(ts) <= back + days
  {
    var back := CycleBack(period, n, today, cal).value;
    var q := DayOf(ts);
    if back <= q <= back + days {
      assert DayStart(back) <= DayStart(q);
      assert DayEnd(q) <= DayEnd(back) + days * SecondsPerDay;
    }
    if q < back {
      assert DayEnd(q) < DayStart(back);
    }
    if q > back + days {
      assert DayStart(q) > DayEnd(back) + days * SecondsPerDay;
    }
  }

  function CycleSeconds(period: Period, n: int): int
    requires period == Day || period == Week
  {
    if period == Day then n * SecondsPerDay else n * (7 * SecondsPerDay)
  }

  /** For daily and weekly cycles the window says what it is meant to: the next
      payment, one cycle after the row's order, falls on a day from today through
      `days` days ahead. */
  lemma {:induction false} NextPaymentWithin(e: Candidate, today: int, days: int, cal: Calendar)
    requires e.cyclePeriod == Day || e.cyclePeriod == Week
    ensures InWindow(e.timestamp, e.cyclePeriod, e.cycleNumber, today, days, cal)
        <==> today <= DayOf(e.timestamp + CycleSeconds(e.cyclePeriod, e.cycleNumber)) <= today + days
  {
    var n := e.cycleNumber;
    var k := if e.cyclePeriod == Day then n else 7 * n;
    assert CycleSeconds(e.cyclePeriod, n) == k * SecondsPerDay;
    assert CycleBack(e.cyclePeriod, n, today, cal) == Some(today - k);
    WindowIsWholeDays(e.timestamp, e.cyclePeriod, n, today, days, cal);
    DayOfShift(e.timestamp, k);
  }

  /** A notice written today for tier d >= 0 keeps the user out of tier d's query
      for the rest of the day, whatever the row. */
  lemma StampExcludesToday(l: Ledger, e: Candidate, d: int, today: int, cal: Calendar)
    requires Stamped(l, e.user, d, today) && d >= 0
    ensures !Eligible(e, Lookup(l, e.user, d), d, today, cal)
  {
  }

  /** A row the query selects against a ledger that only added today's stamps to
      `l0` would have been selected against `l0` too: for a tier of at least 0 days,
      today's stamp fails the meta test, so the meta value it saw is the one in `l0`. */
  lemma SelectedAgainstStart(l0: Ledger, l: Ledger, e: Candidate, days: int, today: int, cal: Calendar)
    requires Grows(l0, l, today) && days >= 0
    requires Eligible(e, Lookup(l, e.user, days), days, today, cal)
    ensures Eligible(e, Lookup(l0, e.user, days), days, today, cal)
  {
    assert Lookup(l0, e.user, days) == Lookup(l, e.user, days);
  }

  /** Suppression window: a notice written on day T for tier d lets the meta test
      of tier d pass again exactly from day T + 2d + 1 on. */
  lemma SuppressionWindow(l: Ledger, u: int, d: int, writtenOn: int, today: int)
    requires Stamped(l, u, d, writtenOn)
    ensures NoticeDue(Lookup(l, u, d), d, today) <==> today >= writtenOn + 2 * d + 1
  {
  }
}
