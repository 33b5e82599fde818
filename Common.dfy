/** Values shared by every part of the reminder model: optional values, the loosely
    typed values a WordPress filter may return, PHP's notion of an "empty" string,
    and the day arithmetic that the SQL query and the notice dates are built on. */
module Common {

  datatype Option<+T> = None | Some(value: T)

  /** A PHP value as a filter callback may hand it back. Only `Bool(true)` is
      identical (`===`) to `true`; `Int(1)` or `Str("yes")` are merely truthy. */
  datatype Mixed = Bool(b: bool) | Int(i: int) | Str(s: string) | Null

  predicate IsTrue(v: Mixed) {
    v == Bool(true)
  }

  /** PHP's `empty()` on a string field: the empty string and "0" are empty.
      A missing (null) field is modelled as "". */
  predicate Empty(s: string) {
    s == "" || s == "0"
  }

  const SecondsPerDay: int := 86400

  /** First second of a day, i.e. "Y-m-d 00:00:00", as a timestamp. */
  function DayStart(day: int): int {
    day * SecondsPerDay
  }

  /** Last second of a day, i.e. "Y-m-d 23:59:59", as a timestamp. */
  function DayEnd(day: int): int {
    day * SecondsPerDay + SecondsPerDay - 1
  }

  /** The calendar day a timestamp falls on (what formatting it as "Y-m-d" yields). */
  function DayOf(t: int): (day: int)
    ensures DayStart(day) <= t <= DayEnd(day)
  {
    t / SecondsPerDay
  }

  /** Two days that bracket the same timestamp are the same day. */
  lemma DayOfUnique(t: int, day: int)
    requires DayStart(day) <= t <= DayEnd(day)
    ensures DayOf(t) == day
  {
  }

  /** `strtotime("+n days", now)` formatted as a date: the day `n` days after today. */
  lemma DayOfShift(t: int, n: int)
    ensures DayOf(t + n * SecondsPerDay) == DayOf(t) + n
  {
    var d := DayOf(t);
    assert DayStart(d + n) <= t + n * SecondsPerDay <= DayEnd(d + n);
    DayOfUnique(t + n * SecondsPerDay, d + n);
  }

  /** Calendar arithmetic the model does not compute itself. Each function takes
      a day number and gives a day number; the time of day is carried unchanged,
      as MySQL's DATE_SUB does with a DATETIME. */
  datatype Calendar = Calendar(
    /** DATE_SUB(day, INTERVAL n MONTH) */
    monthsBack: (int, int) -> int,
    /** DATE_SUB(day, INTERVAL n YEAR) */
    yearsBack: (int, int) -> int,
    /** strtotime("<year>-<month>-01") as a timestamp */
    firstOfMonth: (string, string) -> int)
}
